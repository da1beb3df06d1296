/**
  When S3 ends up with what the local store has, although values change while uploads are under way: with any
  number of workers, exactly as long as each step keeps to a condition on the state it starts from.
 */
module AsyncConvergence {
  import opened Base
  import opened AsyncUpload
  import opened AsyncAccounting

  // ---- debts and uploads ----

  /** One for every item of key k that is not being, and has not been, uploaded. */
  function Pending(k: Key): Weight {
    (p: Place, it: Item) => if it.key == k && !p.InUpload? && !p.Uploaded? then 1 else 0
  }

  predicate Owing(c: Client, k: Key) { (c.Stored? || c.Admitted? || c.FallingBack?) && c.key == k }

  /** Some client but `except` has an upload of k ahead of it. */
  ghost predicate ClientOwes(s: State, except: Option<nat>, k: Key) {
    exists c: nat :: Some(c) != except && Owing(s.At(c), k)
  }

  /** An upload of k that will read the local store, or that failed for good, is on record. */
  ghost predicate Owed(s: State, k: Key) {
    Total(s, Pending(k)) >= 1 || k in s.failed || ClientOwes(s, None, k)
  }

  /** Worker and client have read k for an upload that S3 has not taken yet. */
  predicate WorkerCarries(worker: Worker, k: Key) { worker.Uploading? && !worker.applied && worker.item.key == k }

  predicate ClientCarries(c: Client, k: Key) { c.Syncing? && !c.applied && c.key == k }

  ghost predicate Carried(s: State, k: Key) {
    || (exists w :: 0 <= w < |s.workers| && WorkerCarries(s.workers[w], k))
    || (exists c: nat :: ClientCarries(s.At(c), k))
  }

  /** Whatever is carried for k is b. */
  ghost predicate OnlyCarries(s: State, k: Key, b: Bytes) {
    && (forall w :: 0 <= w < |s.workers| && WorkerCarries(s.workers[w], k) ==> s.workers[w].body == b)
    && (forall c: nat :: ClientCarries(s.At(c), k) ==> s.At(c).body == b)
  }

  /** Once S3 has taken what is carried for k, it has b. */
  ghost predicate Brings(s: State, k: Key, b: Bytes) {
    OnlyCarries(s, k, b) && (Carried(s, k) || Lookup(s.s3, k) == Some(b))
  }

  /** Every local entry is owed to S3, or S3 has it or is about to. */
  ghost predicate Safe(s: State) { forall k :: k in s.local ==> Owed(s, k) || Brings(s, k, s.local[k]) }

  // ---- the condition on a step ----

  /**
    A read for an upload comes while nothing else is carried for the key, unless another debt remains; a
    backfill lands what S3 has or is about to have, unless the key is owed; an object is deleted from S3 when
    its key is not in the local tier, is owed, or is carried.
   */
  ghost predicate Guard(s: State, l: Label) {
    match l
    case Read(w, ok) =>
      if ok && w < |s.workers| && s.workers[w].Holding? && s.workers[w].item.key in s.local then
        var k := s.workers[w].item.key;
        || OnlyCarries(s, k, s.local[k])
        || Total(s, Pending(k)) >= 2 || k in s.failed || ClientOwes(s, None, k)
      else true
    case SyncRead(c, ok) =>
      if ok && s.At(c).FallingBack? && s.At(c).key in s.local then
        var k := s.At(c).key;
        || OnlyCarries(s, k, s.local[k])
        || Total(s, Pending(k)) >= 1 || k in s.failed || ClientOwes(s, Some(c), k)
      else true
    case Fill(c, ok) =>
      ok && s.At(c).Fetched? ==> Owed(s, s.At(c).key) || Brings(s, s.At(c).key, s.At(c).body)
    case DeleteS3(k) => k in s.local ==> Owed(s, k) || Carried(s, k)
    case _ => true
  }

  ghost predicate GuardedRun(cfg: Config, s: State, run: seq<Label>)
    decreases |run|
  {
    run == [] ||
    var mid := Exec(cfg, s, run[..|run| - 1]);
    mid.Some? && GuardedRun(cfg, s, run[..|run| - 1]) && Guard(mid.value, run[|run| - 1])
  }

  // ---- a client's step ----

  /** The step is a fallback's read of the local content of k. */
  predicate SyncReads(s: State, l: Label, k: Key) {
    l.SyncRead? && l.ok && s.At(l.c) == FallingBack(k) && k in s.local
  }

  /** A client's debt is passed on to the queue, read, or ends as a failure; it is never just dropped. */
  lemma DebtPassedOn(cfg: Config, s: State, l: Label, s': State, c: nat, k: Key)
    requires ClientStep(cfg, s, l) == Some(s') && Owing(s.At(c), k)
    ensures
      || Owing(s'.At(c), k)
      || (Accepted(cfg, s, l).Some? && Accepted(cfg, s, l).value.key == k)
      || k in s'.failed
      || (l == SyncRead(c, true) && SyncReads(s, l, k))
  {
    if !l.SyncRead? && !l.Send? { DebtStays(cfg, s, l, s', c, k); }
  }

  lemma DebtStays(cfg: Config, s: State, l: Label, s': State, c: nat, k: Key)
    requires ClientStep(cfg, s, l) == Some(s') && Owing(s.At(c), k) && !l.SyncRead? && !l.Send?
    ensures Owing(s'.At(c), k)
  {
  }

  lemma ClientKeepsDebt(cfg: Config, s: State, l: Label, s': State, k: Key)
    requires ClientStep(cfg, s, l) == Some(s') && Owed(s, k)
    requires SyncReads(s, l, k) ==>
      Total(s, Pending(k)) >= 1 || k in s.failed || ClientOwes(s, Some(l.c), k)
    ensures Owed(s', k)
  {
    ClientTotals(cfg, s, l, s', Pending(k));
    FailedGrows(cfg, s, l, s');
    if Total(s, Pending(k)) < 1 && k !in s.failed {
      var c: nat :| Owing(s.At(c), k) && (SyncReads(s, l, k) ==> c != l.c);
      DebtPassedOn(cfg, s, l, s', c, k);
    }
    TotalNonNegative(s, Pending(k));
  }

  lemma FailedGrows(cfg: Config, s: State, l: Label, s': State)
    requires ClientStep(cfg, s, l) == Some(s')
    ensures forall k :: k in s.failed ==> k in s'.failed
  {
  }

  /** A client's step that neither writes k locally, nor reads, uploads or deletes it, leaves what is brought to S3. */
  predicate TouchesUpload(s: State, l: Label, k: Key) {
    match l
    case SyncRead(c, _) => s.At(c).FallingBack? && s.At(c).key == k
    case SyncApply(c) => s.At(c).Syncing? && s.At(c).key == k
    case SyncDone(c, _) => s.At(c).Syncing? && s.At(c).key == k
    case DeleteS3(j) => j == k
    case _ => false
  }

  /** What a client's step does to the local tier at k. */
  lemma ClientLocal(cfg: Config, s: State, l: Label, s': State, k: Key)
    requires ClientStep(cfg, s, l) == Some(s')
    ensures s'.workers == s.workers
    ensures Lookup(s'.local, k) == match l
      case PutLocal(_, j, b) => if j == k then Some(b) else Lookup(s.local, k)
      case Fill(c, ok) => if ok && s.At(c).key == k then Some(s.At(c).body) else Lookup(s.local, k)
      case Evict(j) => if j == k then None else Lookup(s.local, k)
      case DeleteLocal(j) => if j == k then None else Lookup(s.local, k)
      case _ => Lookup(s.local, k)
  {
  }

  lemma ClientUploads(cfg: Config, s: State, l: Label, s': State, k: Key, c: nat)
    requires ClientStep(cfg, s, l) == Some(s') && !TouchesUpload(s, l, k)
    ensures ClientCarries(s'.At(c), k) <==> ClientCarries(s.At(c), k)
    ensures ClientCarries(s.At(c), k) ==> s'.At(c) == s.At(c)
    ensures Lookup(s'.s3, k) == Lookup(s.s3, k)
  {
    if l.SyncRead? || l.SyncApply? || l.SyncDone? { SyncElsewhere(cfg, s, l, s', k, c); }
  }

  lemma SyncElsewhere(cfg: Config, s: State, l: Label, s': State, k: Key, c: nat)
    requires ClientStep(cfg, s, l) == Some(s') && !TouchesUpload(s, l, k)
    requires l.SyncRead? || l.SyncApply? || l.SyncDone?
    ensures ClientCarries(s'.At(c), k) <==> ClientCarries(s.At(c), k)
    ensures ClientCarries(s.At(c), k) ==> s'.At(c) == s.At(c)
    ensures Lookup(s'.s3, k) == Lookup(s.s3, k)
  {
  }

  lemma ClientKeepsBrings(cfg: Config, s: State, l: Label, s': State, k: Key, b: Bytes)
    requires ClientStep(cfg, s, l) == Some(s') && Brings(s, k, b)
    requires l == DeleteS3(k) ==> Carried(s, k)
    requires SyncReads(s, l, k) ==> s.local[k] == b
    ensures Brings(s', k, b) || k in s'.failed
  {
    ClientLocal(cfg, s, l, s', k);
    if TouchesUpload(s, l, k) {
      ClientTouches(cfg, s, l, s', k, b);
    } else {
      forall c: nat ensures ClientCarries(s'.At(c), k) <==> ClientCarries(s.At(c), k)
        ensures ClientCarries(s.At(c), k) ==> s'.At(c) == s.At(c) && Lookup(s'.s3, k) == Lookup(s.s3, k)
      {
        ClientUploads(cfg, s, l, s', k, c);
      }
      ClientUploads(cfg, s, l, s', k, 0);
    }
  }

  lemma ClientTouches(cfg: Config, s: State, l: Label, s': State, k: Key, b: Bytes)
    requires ClientStep(cfg, s, l) == Some(s') && Brings(s, k, b) && TouchesUpload(s, l, k) && s'.workers == s.workers
    requires l == DeleteS3(k) ==> Carried(s, k)
    requires SyncReads(s, l, k) ==> s.local[k] == b
    ensures Brings(s', k, b) || k in s'.failed
  {
    if l.DeleteS3? {
      assert forall c: nat :: s'.At(c) == s.At(c);
    } else {
      forall c: nat | c != l.c ensures s'.At(c) == s.At(c) { }
      if SyncReads(s, l, k) { assert ClientCarries(s'.At(l.c), k); }
      if Carried(s, k) && !ClientCarries(s.At(l.c), k) {
        if c: nat :| ClientCarries(s.At(c), k) { assert ClientCarries(s'.At(c), k); }
      }
    }
  }

  /** A fallback reads the local content while nothing else is carried for its key. */
  lemma SyncReadBrings(cfg: Config, s: State, l: Label, s': State, k: Key)
    requires ClientStep(cfg, s, l) == Some(s') && SyncReads(s, l, k) && OnlyCarries(s, k, s.local[k])
    ensures Brings(s', k, s.local[k])
  {
    forall c: nat | c != l.c ensures s'.At(c) == s.At(c) { }
    assert ClientCarries(s'.At(l.c), k);
  }

  lemma ClientKeepsKey(cfg: Config, s: State, l: Label, s': State, k: Key)
    requires Safe(s) && Guard(s, l) && ClientStep(cfg, s, l) == Some(s') && k in s'.local
    ensures Owed(s', k) || Brings(s', k, s'.local[k])
  {
    ClientLocal(cfg, s, l, s', k);
    if l.PutLocal? && l.key == k {
      assert Owing(s'.At(l.c), k);
    } else if SyncReads(s, l, k) && OnlyCarries(s, k, s.local[k]) {
      SyncReadBrings(cfg, s, l, s', k);
    } else if Owed(s, k) {
      ClientKeepsDebt(cfg, s, l, s', k);
    } else {
      ClientKeepsBrings(cfg, s, l, s', k, s'.local[k]);
    }
  }

  // ---- the uploader's step ----

  predicate ReadsKey(s: State, l: Label, k: Key) {
    l.Read? && l.ok && l.w < |s.workers| && s.workers[l.w].Holding? && s.workers[l.w].item.key == k && k in s.local
  }

  predicate FailsKey(s: State, l: Label, k: Key) {
    l.Finish? && !l.ok && l.w < |s.workers| && s.workers[l.w].Uploading? && s.workers[l.w].item.key == k
  }

  /** Opening the local content settles one debt of k; a failed upload of k renews one. */
  lemma PendingDelta(cfg: Config, s: State, l: Label, k: Key)
    requires UploaderStep(cfg, s, l).Some?
    ensures UploaderDelta(cfg, s, l, Pending(k)) == if ReadsKey(s, l, k) then -1 else if FailsKey(s, l, k) then 1 else 0
  {
  }

  lemma UploaderKeepsTiers(cfg: Config, s: State, l: Label, s': State)
    requires UploaderStep(cfg, s, l) == Some(s')
    ensures s'.local == s.local && s'.clients == s.clients && s'.failed == s.failed
    ensures !l.Apply? ==> s'.s3 == s.s3
  {
    if l.Take? || l.Read? || l.Apply? || l.Finish? { WorkKeepsTiers(cfg, s, l, s'); }
  }

  lemma WorkKeepsTiers(cfg: Config, s: State, l: Label, s': State)
    requires UploaderStep(cfg, s, l) == Some(s') && (l.Take? || l.Read? || l.Apply? || l.Finish?)
    ensures s'.local == s.local && s'.clients == s.clients && s'.failed == s.failed
    ensures !l.Apply? ==> s'.s3 == s.s3
  {
  }

  /** What an uploader's step does to its worker. */
  lemma WorkerMoves(cfg: Config, s: State, l: Label, s': State)
    requires UploaderStep(cfg, s, l) == Some(s')
    ensures
      match l
      case Read(w, _) =>
        && w < |s.workers| && s.workers[w].Holding? && s'.workers == s.workers[w := s'.workers[w]]
        && forall k :: WorkerCarries(s'.workers[w], k) <==> ReadsKey(s, l, k)
      case Apply(w) =>
        && w < |s.workers| && s.workers[w].Uploading? && !s.workers[w].applied
        && s'.s3 == s.s3[s.workers[w].item.key := s.workers[w].body]
        && s'.workers == s.workers[w := s.workers[w].(applied := true)]
      case Finish(w, ok) =>
        && w < |s.workers| && s.workers[w].Uploading? && (ok ==> s.workers[w].applied)
        && s'.workers == s.workers[w := Idle]
      case Take(w) => w < |s.workers| && s.workers[w].Idle? && s'.workers == s.workers[w := Holding(s.queue[0])]
      case Exit(w) => w < |s.workers| && s.workers[w].Idle? && s'.workers == s.workers[w := Exited]
      case _ => s'.workers == s.workers
    ensures forall k :: ReadsKey(s, l, k) ==> s'.workers[l.w].body == s.local[k]
  {
  }

  /** Replacing one worker, with what that does to what is carried for k. */
  lemma WorkerReplaced(s: State, w: nat, worker: Worker, s': State, k: Key, b: Bytes)
    requires w < |s.workers| && s'.workers == s.workers[w := worker] && s'.clients == s.clients
    requires OnlyCarries(s, k, b) && (WorkerCarries(worker, k) ==> worker.body == b)
    ensures OnlyCarries(s', k, b)
    ensures WorkerCarries(worker, k) ==> Carried(s', k)
    ensures !WorkerCarries(s.workers[w], k) && Carried(s, k) ==> Carried(s', k)
  {
    assert s'.workers[w] == worker;
    forall c: nat ensures s'.At(c) == s.At(c) { }
    if !WorkerCarries(s.workers[w], k) && Carried(s, k) {
      if v :| 0 <= v < |s.workers| && WorkerCarries(s.workers[v], k) { assert WorkerCarries(s'.workers[v], k); }
      else {
        var c: nat :| ClientCarries(s.At(c), k);
        assert ClientCarries(s'.At(c), k);
      }
    }
  }

  lemma UploaderKeepsBrings(cfg: Config, s: State, l: Label, s': State, k: Key, b: Bytes)
    requires UploaderStep(cfg, s, l) == Some(s') && Brings(s, k, b)
    requires ReadsKey(s, l, k) ==> s.local[k] == b
    ensures Brings(s', k, b) || FailsKey(s, l, k)
  {
    WorkerMoves(cfg, s, l, s');
    UploaderKeepsTiers(cfg, s, l, s');
    if l.Take? || l.Read? || l.Apply? || l.Finish? || l.Exit? {
      WorkerReplaced(s, l.w, s'.workers[l.w], s', k, b);
    } else {
      forall c: nat ensures s'.At(c) == s.At(c) { }
    }
  }

  lemma ReadBrings(cfg: Config, s: State, l: Label, s': State, k: Key)
    requires UploaderStep(cfg, s, l) == Some(s') && ReadsKey(s, l, k) && OnlyCarries(s, k, s.local[k])
    ensures Brings(s', k, s.local[k])
  {
    WorkerMoves(cfg, s, l, s');
    UploaderKeepsTiers(cfg, s, l, s');
    WorkerReplaced(s, l.w, s'.workers[l.w], s', k, s.local[k]);
  }

  lemma UploaderKeepsDebt(cfg: Config, s: State, l: Label, s': State, k: Key)
    requires UploaderStep(cfg, s, l) == Some(s')
    requires FailsKey(s, l, k) || Owed(s, k)
    requires ReadsKey(s, l, k) ==> Total(s, Pending(k)) >= 2 || k in s.failed || ClientOwes(s, None, k)
    ensures Owed(s', k)
  {
    UploaderTotals(cfg, s, l, s', Pending(k));
    PendingDelta(cfg, s, l, k);
    UploaderKeepsTiers(cfg, s, l, s');
    TotalNonNegative(s, Pending(k));
    if ClientOwes(s, None, k) {
      var c: nat :| Owing(s.At(c), k);
      assert Owing(s'.At(c), k);
    }
  }

  lemma UploaderKeepsKey(cfg: Config, s: State, l: Label, s': State, k: Key)
    requires Safe(s) && Guard(s, l) && UploaderStep(cfg, s, l) == Some(s') && k in s'.local
    ensures Owed(s', k) || Brings(s', k, s'.local[k])
  {
    UploaderKeepsTiers(cfg, s, l, s');
    if ReadsKey(s, l, k) && OnlyCarries(s, k, s.local[k]) {
      ReadBrings(cfg, s, l, s', k);
    } else if Owed(s, k) || FailsKey(s, l, k) {
      UploaderKeepsDebt(cfg, s, l, s', k);
    } else {
      UploaderKeepsBrings(cfg, s, l, s', k, s.local[k]);
    }
  }

  // ---- runs ----

  lemma StepSafe(cfg: Config, s: State, l: Label, s': State)
    requires Safe(s) && Guard(s, l) && Next(cfg, s, l) == Some(s')
    ensures Safe(s')
  {
    forall k | k in s'.local ensures Owed(s', k) || Brings(s', k, s'.local[k]) {
      if ClientStep(cfg, s, l).Some? { ClientKeepsKey(cfg, s, l, s', k); } else { UploaderKeepsKey(cfg, s, l, s', k); }
    }
  }

  /** Every local entry is in S3 with the same content. */
  ghost predicate Coherent(local: map<Key, Bytes>, s3: map<Key, Bytes>) {
    forall k :: k in local ==> k in s3 && s3[k] == local[k]
  }

  lemma {:induction false} RunSafe(cfg: Config, local: map<Key, Bytes>, s3: map<Key, Bytes>, run: seq<Label>, s: State)
    requires Coherent(local, s3)
    requires Exec(cfg, Init(cfg, local, s3), run) == Some(s) && GuardedRun(cfg, Init(cfg, local, s3), run)
    ensures Safe(s)
    decreases |run|
  {
    if run != [] {
      var mid := Exec(cfg, Init(cfg, local, s3), run[..|run| - 1]).value;
      RunSafe(cfg, local, s3, run[..|run| - 1], mid);
      StepSafe(cfg, mid, run[|run| - 1], s);
    }
  }

  // ---- what it comes to ----

  predicate WorkerHas(worker: Worker, k: Key) { (worker.Holding? || worker.Uploading?) && worker.item.key == k }

  predicate ClientHas(c: Client, k: Key) { Owing(c, k) || (c.Syncing? && c.key == k) }

  /** No upload of k is still to come or under way. */
  ghost predicate Settled(s: State, k: Key) {
    && !InSeq(s.queue, k) && !InSeq(s.sleepers, k)
    && (forall w :: 0 <= w < |s.workers| ==> !WorkerHas(s.workers[w], k))
    && (forall c: nat :: !ClientHas(s.At(c), k))
  }

  /** Some upload of k was given up, or some Put of k returned an error. */
  ghost predicate Lost(s: State, k: Key) {
    InSeq(s.missing, k) || InSeq(s.exhausted, k) || InSeq(s.dropped, k) || k in s.failed
  }

  lemma {:induction false} NothingForUploaded(items: seq<Item>, k: Key)
    ensures Sum(Uploaded, items, Pending(k)) == 0
    decreases |items|
  {
    if items != [] { NothingForUploaded(items[..|items| - 1], k); }
  }

  lemma SettledOwesOnlyLost(s: State, k: Key)
    requires Settled(s, k) && Owed(s, k)
    ensures Lost(s, k)
  {
    if k !in s.failed {
      var f := Pending(k);
      NothingForUploaded(s.uploaded, k);
      TotalNonNegative(s, f);
      assert !InHand(s.workers, k) by {
        forall w | 0 <= w < |s.workers| ensures !WorkerHas(s.workers[w], k) { }
      }
      if Sum(Queued, s.queue, f) >= 1 { SumFinds(Queued, s.queue, f, k); }
      else if Sum(Asleep, s.sleepers, f) >= 1 { SumFinds(Asleep, s.sleepers, f, k); }
      else if SumWorkers(s.workers, f) >= 1 { SumWorkersFinds(s.workers, f, k); }
      else if Sum(Missing, s.missing, f) >= 1 { SumFinds(Missing, s.missing, f, k); }
      else if Sum(Exhausted, s.exhausted, f) >= 1 { SumFinds(Exhausted, s.exhausted, f, k); }
      else { SumFinds(Dropped, s.dropped, f, k); }
    }
  }

  /** S3 has k with the local content. */
  predicate Agree(s: State, k: Key) { k in s.local ==> Lookup(s.s3, k) == Some(s.local[k]) }

  /**
    With any number of workers, fallbacks, backfills, evictions and deletes, in a run whose steps keep to the
    guard: once the uploads of k have settled and none was lost, S3 has k with the local content.
   */
  lemma GuardedConverges(cfg: Config, local: map<Key, Bytes>, s3: map<Key, Bytes>, run: seq<Label>, s: State, k: Key)
    requires Coherent(local, s3)
    requires Exec(cfg, Init(cfg, local, s3), run) == Some(s) && GuardedRun(cfg, Init(cfg, local, s3), run)
    requires Settled(s, k) && !Lost(s, k)
    ensures Agree(s, k)
  {
    RunSafe(cfg, local, s3, run, s);
    if Owed(s, k) { SettledOwesOnlyLost(s, k); }
  }

  // ---- the guard is exact ----

  /** An entry that nothing will bring to S3. */
  ghost predicate Unsafe(s: State, k: Key) { k in s.local && !Owed(s, k) && !Brings(s, k, s.local[k]) }

  lemma StaleStays(s: State, s': State, k: Key, b: Bytes)
    requires !OnlyCarries(s, k, b) && |s'.workers| == |s.workers|
    requires forall w :: 0 <= w < |s.workers| && WorkerCarries(s.workers[w], k) ==> s'.workers[w] == s.workers[w]
    requires forall c: nat :: ClientCarries(s.At(c), k) ==> s'.At(c) == s.At(c)
    ensures !OnlyCarries(s', k, b)
  {
    if w :| 0 <= w < |s.workers| && WorkerCarries(s.workers[w], k) && s.workers[w].body != b {
      assert WorkerCarries(s'.workers[w], k) && s'.workers[w].body != b;
    } else {
      var c: nat :| ClientCarries(s.At(c), k) && s.At(c).body != b;
      assert ClientCarries(s'.At(c), k) && s'.At(c).body != b;
    }
  }

  lemma ReadUnsafe(cfg: Config, s: State, w: nat, ok: bool, s': State)
    requires UploaderStep(cfg, s, Read(w, ok)) == Some(s') && !Guard(s, Read(w, ok))
    ensures Unsafe(s', s.workers[w].item.key)
  {
    var l, k := Read(w, ok), s.workers[w].item.key;
    WorkerMoves(cfg, s, l, s');
    UploaderKeepsTiers(cfg, s, l, s');
    UploaderTotals(cfg, s, l, s', Pending(k));
    PendingDelta(cfg, s, l, k);
    forall c: nat ensures s'.At(c) == s.At(c) { }
    StaleStays(s, s', k, s.local[k]);
  }

  lemma SyncReadUnsafe(cfg: Config, s: State, c: nat, ok: bool, s': State)
    requires ClientStep(cfg, s, SyncRead(c, ok)) == Some(s') && !Guard(s, SyncRead(c, ok))
    ensures Unsafe(s', s.At(c).key)
  {
    var k := s.At(c).key;
    ClientTotals(cfg, s, SyncRead(c, ok), s', Pending(k));
    forall d: nat | d != c ensures s'.At(d) == s.At(d) { }
    StaleStays(s, s', k, s.local[k]);
  }

  lemma FillUnsafe(cfg: Config, s: State, c: nat, ok: bool, s': State)
    requires ClientStep(cfg, s, Fill(c, ok)) == Some(s') && !Guard(s, Fill(c, ok))
    ensures Unsafe(s', s.At(c).key)
  {
    var k, b := s.At(c).key, s.At(c).body;
    ClientTotals(cfg, s, Fill(c, ok), s', Pending(k));
    forall d: nat | d != c ensures s'.At(d) == s.At(d) { }
    if !OnlyCarries(s, k, b) { StaleStays(s, s', k, b); }
  }

  lemma DeleteUnsafe(cfg: Config, s: State, k: Key, s': State)
    requires ClientStep(cfg, s, DeleteS3(k)) == Some(s') && !Guard(s, DeleteS3(k))
    ensures Unsafe(s', k)
  {
    ClientTotals(cfg, s, DeleteS3(k), s', Pending(k));
    forall d: nat ensures s'.At(d) == s.At(d) { }
  }

  /** The key that the guard of a step is about. */
  function AtRisk(s: State, l: Label): Key
    requires !Guard(s, l)
  {
    match l
    case Read(w, _) => s.workers[w].item.key
    case SyncRead(c, _) => s.At(c).key
    case Fill(c, _) => s.At(c).key
    case DeleteS3(k) => k
  }

  /** A step that breaks the guard leaves an entry that nothing will bring to S3. */
  lemma BrokenGuardIsUnsafe(cfg: Config, s: State, l: Label, s': State)
    requires Next(cfg, s, l) == Some(s') && !Guard(s, l)
    ensures Unsafe(s', AtRisk(s, l)) && !s'.phase.Crashed?
  {
    match l
    case Read(w, ok) => ReadUnsafe(cfg, s, w, ok, s');
    case SyncRead(c, ok) => SyncReadUnsafe(cfg, s, c, ok, s');
    case Fill(c, ok) => FillUnsafe(cfg, s, c, ok, s');
    case DeleteS3(k) => DeleteUnsafe(cfg, s, k, s');
  }

  /** An upload under way, of a worker or of a client. */
  datatype Slot = OfWorker(w: nat) | OfClient(c: nat)

  function Slots(s: State, k: Key): set<Slot> {
    (set w | 0 <= w < |s.workers| && s.workers[w].Uploading? && s.workers[w].item.key == k :: OfWorker(w))
    + (set c | c in s.clients && s.clients[c].Syncing? && s.clients[c].key == k :: OfClient(c))
  }

  /** What S3 has yet to take from a slot. */
  function Ahead(s: State, x: Slot): Option<Bytes> {
    match x
    case OfWorker(w) =>
      if w < |s.workers| && s.workers[w].Uploading? && !s.workers[w].applied then Some(s.workers[w].body) else None
    case OfClient(c) => if s.At(c).Syncing? && !s.At(c).applied then Some(s.At(c).body) else None
  }

  /** The steps by which uploads under way succeed. */
  predicate Succeeds(l: Label) { l.Apply? || l.SyncApply? || (l.Finish? && l.ok) || (l.SyncDone? && l.ok) }

  ghost predicate Finishes(cfg: Config, s: State, run: seq<Label>, s': State) {
    Exec(cfg, s, run) == Some(s') && forall i :: 0 <= i < |run| ==> Succeeds(run[i])
  }

  lemma FinishesOne(cfg: Config, s: State, l: Label, s': State)
    requires Next(cfg, s, l) == Some(s') && Succeeds(l)
    ensures Finishes(cfg, s, [l], s')
  {
    assert [l][..0] == [];
  }

  lemma {:induction false} FinishesOn(cfg: Config, s: State, a: seq<Label>, mid: State, b: seq<Label>, s': State)
    requires Finishes(cfg, s, a, mid) && Finishes(cfg, mid, b, s')
    ensures Finishes(cfg, s, a + b, s')
    decreases |b|
  {
    if b == [] {
      assert a + b == a;
    } else {
      FinishesOn(cfg, s, a, mid, b[..|b| - 1], Exec(cfg, mid, b[..|b| - 1]).value);
      assert (a + b)[..|a + b| - 1] == a + b[..|b| - 1];
    }
  }

  /** A successful step makes no debt. */
  lemma SuccessMakesNoDebt(cfg: Config, s: State, l: Label, s': State, k: Key)
    requires Next(cfg, s, l) == Some(s') && Succeeds(l) && !Owed(s, k)
    ensures !Owed(s', k) && s'.local == s.local && s'.phase == s.phase
  {
    if ClientStep(cfg, s, l).Some? {
      ClientTotals(cfg, s, l, s', Pending(k));
      SyncSucceeds(cfg, s, l, s');
      forall c: nat | Owing(s'.At(c), k) ensures Owing(s.At(c), k) { }
    } else {
      UploaderTotals(cfg, s, l, s', Pending(k));
      PendingDelta(cfg, s, l, k);
      SuccessKeepsPhase(cfg, s, l, s');
      forall c: nat | Owing(s'.At(c), k) ensures Owing(s.At(c), k) { }
    }
  }

  lemma SyncSucceeds(cfg: Config, s: State, l: Label, s': State)
    requires ClientStep(cfg, s, l) == Some(s') && Succeeds(l)
    ensures s'.local == s.local && s'.phase == s.phase && s'.failed == s.failed && Accepted(cfg, s, l).None?
    ensures forall c: nat :: s'.At(c) == s.At(c) || s'.At(c).Away? || s'.At(c).Syncing?
  {
  }

  lemma SuccessKeepsPhase(cfg: Config, s: State, l: Label, s': State)
    requires UploaderStep(cfg, s, l) == Some(s') && Succeeds(l)
    ensures s'.phase == s.phase && s'.local == s.local && s'.clients == s.clients && s'.failed == s.failed
  {
  }

  /** S3 takes what a slot has ahead, and nothing else changes. */
  lemma TakeSlot(cfg: Config, s: State, k: Key, x: Slot) returns (l: Label, s': State)
    requires x in Slots(s, k) && Ahead(s, x).Some? && !s.phase.Crashed?
    ensures Next(cfg, s, l) == Some(s') && Succeeds(l)
    ensures Lookup(s'.s3, k) == Ahead(s, x) && Ahead(s', x) == None && Slots(s', k) == Slots(s, k)
    ensures forall y :: y != x ==> Ahead(s', y) == Ahead(s, y)
  {
    match x
    case OfWorker(w) =>
      l := Apply(w);
      s' := s.(s3 := s.s3[k := s.workers[w].body], workers := s.workers[w := s.workers[w].(applied := true)]);
      assert Next(cfg, s, l) == Some(s');
      forall c: nat ensures s'.At(c) == s.At(c) { }
    case OfClient(c) =>
      l := SyncApply(c);
      s' := s.(s3 := s.s3[k := s.At(c).body], clients := s.clients[c := s.At(c).(applied := true)]);
      assert Next(cfg, s, l) == Some(s');
      forall d: nat | d != c ensures s'.At(d) == s.At(d) { }
  }

  /** An upload that S3 has taken ends well. */
  lemma EndSlot(cfg: Config, s: State, k: Key, x: Slot) returns (l: Label, s': State)
    requires x in Slots(s, k) && Ahead(s, x).None? && !s.phase.Crashed?
    ensures Next(cfg, s, l) == Some(s') && Succeeds(l)
    ensures s'.s3 == s.s3 && Slots(s', k) == Slots(s, k) - {x}
    ensures forall y :: Ahead(s', y) == Ahead(s, y)
  {
    match x
    case OfWorker(w) =>
      l := Finish(w, true);
      s' := s.(uploaded := s.uploaded + [s.workers[w].item], workers := s.workers[w := Idle]);
      assert Next(cfg, s, l) == Some(s');
      forall c: nat ensures s'.At(c) == s.At(c) { }
    case OfClient(c) =>
      l := SyncDone(c, true);
      s' := s.(acked := s.acked + {k}, clients := s.clients[c := Away]);
      assert Next(cfg, s, l) == Some(s');
      forall d: nat | d != c ensures s'.At(d) == s.At(d) { }
  }

  /** The upload of a slot succeeds. */
  lemma FinishSlot(cfg: Config, s: State, k: Key, x: Slot) returns (run: seq<Label>, s': State)
    requires x in Slots(s, k) && !s.phase.Crashed? && !Owed(s, k)
    ensures Finishes(cfg, s, run, s') && !Owed(s', k) && s'.local == s.local && s'.phase == s.phase
    ensures Slots(s', k) == Slots(s, k) - {x}
    ensures Lookup(s'.s3, k) == if Ahead(s, x).Some? then Ahead(s, x) else Lookup(s.s3, k)
    ensures forall y :: y != x ==> Ahead(s', y) == Ahead(s, y)
  {
    run, s' := [], s;
    if Ahead(s, x).Some? {
      var l, mid := TakeSlot(cfg, s, k, x);
      SuccessMakesNoDebt(cfg, s, l, mid, k);
      FinishesOne(cfg, s, l, mid);
      run, s' := [l], mid;
    }
    var l, end := EndSlot(cfg, s', k, x);
    SuccessMakesNoDebt(cfg, s', l, end, k);
    FinishesOne(cfg, s', l, end);
    FinishesOn(cfg, s, run, s', [l], end);
    run, s' := run + [l], end;
  }

  /** All uploads of k succeed but those in `kept`. */
  lemma {:induction false} FinishOthers(cfg: Config, s: State, k: Key, todo: set<Slot>, kept: set<Slot>)
    returns (run: seq<Label>, s': State)
    requires !s.phase.Crashed? && !Owed(s, k) && Slots(s, k) == todo + kept && todo !! kept
    ensures Finishes(cfg, s, run, s') && !Owed(s', k) && s'.local == s.local && s'.phase == s.phase
    ensures Slots(s', k) == kept && forall x :: x in kept ==> Ahead(s', x) == Ahead(s, x)
    ensures (forall x :: x in todo ==> Ahead(s, x).None?) ==> Lookup(s'.s3, k) == Lookup(s.s3, k)
    decreases todo
  {
    if todo == {} {
      run, s' := [], s;
      assert Exec(cfg, s, []) == Some(s) && todo + kept == kept;
    } else {
      var x :| x in todo;
      var first, mid := FinishSlot(cfg, s, k, x);
      assert Slots(mid, k) == todo - {x} + kept;
      var rest: seq<Label>;
      rest, s' := FinishOthers(cfg, mid, k, todo - {x}, kept);
      FinishesOn(cfg, s, first, mid, rest, s');
      run := first + rest;
    }
  }

  lemma NothingLeft(s: State, k: Key)
    requires !Owed(s, k) && Slots(s, k) == {}
    ensures Settled(s, k) && !Lost(s, k)
  {
    var f := Pending(k);
    TotalNonNegative(s, f);
    SumNonNegative(Queued, s.queue, f);
    SumNonNegative(Asleep, s.sleepers, f);
    SumNonNegative(Missing, s.missing, f);
    SumNonNegative(Exhausted, s.exhausted, f);
    SumNonNegative(Dropped, s.dropped, f);
    SumWorkersNonNegative(s.workers, f);
    NoneOf(Queued, s.queue, k); NoneOf(Asleep, s.sleepers, k);
    NoneOf(Missing, s.missing, k); NoneOf(Exhausted, s.exhausted, k); NoneOf(Dropped, s.dropped, k);
    forall w | 0 <= w < |s.workers| ensures !WorkerHas(s.workers[w], k) {
      assert OfWorker(w) !in Slots(s, k) && WorkerWeight(s.workers[w], f) <= 0;
    }
    forall c: nat ensures !ClientHas(s.At(c), k) { assert OfClient(c) !in Slots(s, k) && !Owing(s.At(c), k); }
  }

  lemma NoneOf(p: Place, items: seq<Item>, k: Key)
    requires !p.InUpload? && !p.Uploaded? && forall i :: 0 <= i < |items| ==> Pending(k)(p, items[i]) <= 0
    ensures !InSeq(items, k)
  {
    forall i | 0 <= i < |items| ensures items[i].key != k { assert Pending(k)(p, items[i]) <= 0; }
  }

  /** From such an entry, the uploads under way can all succeed and S3 end up without the local content. */
  lemma UnsafeDiverges(cfg: Config, s: State, k: Key) returns (run: seq<Label>, s': State)
    requires Unsafe(s, k) && !s.phase.Crashed?
    ensures Finishes(cfg, s, run, s') && s'.local == s.local && Settled(s', k) && !Lost(s', k) && !Agree(s', k)
  {
    if w :| 0 <= w < |s.workers| && WorkerCarries(s.workers[w], k) && s.workers[w].body != s.local[k] {
      run, s' := FinishLast(cfg, s, k, OfWorker(w));
    } else if c: nat :| ClientCarries(s.At(c), k) && s.At(c).body != s.local[k] {
      run, s' := FinishLast(cfg, s, k, OfClient(c));
    } else {
      forall x | x in Slots(s, k) ensures Ahead(s, x).None? { NotAhead(s, k, x); }
      run, s' := FinishOthers(cfg, s, k, Slots(s, k), {});
    }
    NothingLeft(s', k);
  }

  /** All uploads of k succeed, the one of `last` at the end. */
  lemma FinishLast(cfg: Config, s: State, k: Key, last: Slot) returns (run: seq<Label>, s': State)
    requires !s.phase.Crashed? && !Owed(s, k) && last in Slots(s, k) && Ahead(s, last).Some?
    ensures Finishes(cfg, s, run, s') && !Owed(s', k) && s'.local == s.local && Slots(s', k) == {}
    ensures Lookup(s'.s3, k) == Ahead(s, last)
  {
    var first, mid := FinishOthers(cfg, s, k, Slots(s, k) - {last}, {last});
    var rest: seq<Label>;
    rest, s' := FinishSlot(cfg, mid, k, last);
    FinishesOn(cfg, s, first, mid, rest, s');
    run := first + rest;
  }

  lemma NotAhead(s: State, k: Key, x: Slot)
    requires x in Slots(s, k) && !Carried(s, k)
    ensures Ahead(s, x).None?
  {
    match x
    case OfWorker(w) => assert !WorkerCarries(s.workers[w], k);
    case OfClient(c) => assert !ClientCarries(s.At(c), k);
  }

  /**
    The guard cannot be relaxed: after any step that breaks it, whatever went before, the uploads under way can
    all succeed, with no new Put and no failure, and leave S3 without the local content of its key.
   */
  lemma BrokenGuardDiverges(cfg: Config, s: State, l: Label, s': State) returns (run: seq<Label>, end: State)
    requires Next(cfg, s, l) == Some(s') && !Guard(s, l)
    ensures Finishes(cfg, s', run, end) && end.local == s'.local
    ensures
      var k := AtRisk(s, l);
      Settled(end, k) && !Lost(end, k) && !Agree(end, k)
  {
    BrokenGuardIsUnsafe(cfg, s, l, s');
    run, end := UnsafeDiverges(cfg, s', AtRisk(s, l));
  }

  // ---- one worker ----

  /** No Put begins to fall back to a synchronous upload. */
  predicate NoFallback(cfg: Config, s: State, l: Label) {
    match l
    case CheckRunning(_) => s.phase.Running?
    case Send(_) => QueueOpen(s) && |s.queue| < cfg.capacity
    case _ => true
  }

  /** No fallback, and the guard of backfills and deletes. */
  ghost predicate Calm(cfg: Config, s: State, l: Label) { NoFallback(cfg, s, l) && (Guard(s, l) || l.Read?) }

  ghost predicate CalmRun(cfg: Config, s: State, run: seq<Label>)
    decreases |run|
  {
    run == [] ||
    var mid := Exec(cfg, s, run[..|run| - 1]);
    mid.Some? && CalmRun(cfg, s, run[..|run| - 1]) && Calm(cfg, mid.value, run[|run| - 1])
  }

  /** In every calm run, once the uploads of a key have settled and none was lost, S3 has its local content. */
  ghost predicate Converges(cfg: Config) {
    forall local, s3, run, s, k ::
      && Coherent(local, s3) && Exec(cfg, Init(cfg, local, s3), run) == Some(s)
      && CalmRun(cfg, Init(cfg, local, s3), run) && Settled(s, k) && !Lost(s, k)
      ==> Agree(s, k)
  }

  lemma NobodySyncs(cfg: Config, s: State, l: Label, s': State)
    requires Next(cfg, s, l) == Some(s') && NoFallback(cfg, s, l)
    requires forall c: nat :: !s.At(c).FallingBack? && !s.At(c).Syncing?
    ensures |s'.workers| == |s.workers| && forall c: nat :: !s'.At(c).FallingBack? && !s'.At(c).Syncing?
  {
    if ClientStep(cfg, s, l).Some? {
      ClientItems(cfg, s, l, s');
      forall c: nat ensures !s'.At(c).FallingBack? && !s'.At(c).Syncing? { NobodyBeginsToSync(cfg, s, l, s', c); }
    } else {
      WorkerMoves(cfg, s, l, s');
      UploaderKeepsTiers(cfg, s, l, s');
      forall c: nat ensures s'.At(c) == s.At(c) { }
    }
  }

  lemma NobodyBeginsToSync(cfg: Config, s: State, l: Label, s': State, c: nat)
    requires ClientStep(cfg, s, l) == Some(s') && NoFallback(cfg, s, l)
    requires !s.At(c).FallingBack? && !s.At(c).Syncing?
    ensures !s'.At(c).FallingBack? && !s'.At(c).Syncing?
  {
  }

  lemma CalmIsGuarded(cfg: Config, s: State, l: Label)
    requires |s.workers| == 1 && Calm(cfg, s, l) && forall c: nat :: !s.At(c).FallingBack? && !s.At(c).Syncing?
    ensures Guard(s, l)
  {
  }

  /** With one worker and no fallback nothing is carried when an upload reads. */
  lemma {:induction false} OneWorkerIsGuarded(cfg: Config, local: map<Key, Bytes>, s3: map<Key, Bytes>,
      run: seq<Label>, s: State)
    requires cfg.workers == 1
    requires Exec(cfg, Init(cfg, local, s3), run) == Some(s) && CalmRun(cfg, Init(cfg, local, s3), run)
    ensures |s.workers| == 1 && forall c: nat :: !s.At(c).FallingBack? && !s.At(c).Syncing?
    ensures GuardedRun(cfg, Init(cfg, local, s3), run)
    decreases |run|
  {
    if run != [] {
      var mid := Exec(cfg, Init(cfg, local, s3), run[..|run| - 1]).value;
      OneWorkerIsGuarded(cfg, local, s3, run[..|run| - 1], mid);
      NobodySyncs(cfg, mid, run[|run| - 1], s);
      CalmIsGuarded(cfg, mid, run[|run| - 1]);
    }
  }

  lemma OneWorkerConverges(cfg: Config, local: map<Key, Bytes>, s3: map<Key, Bytes>, run: seq<Label>, s: State, k: Key)
    requires cfg.workers == 1 && Coherent(local, s3)
    requires Exec(cfg, Init(cfg, local, s3), run) == Some(s) && CalmRun(cfg, Init(cfg, local, s3), run)
    requires Settled(s, k) && !Lost(s, k)
    ensures Agree(s, k)
  {
    OneWorkerIsGuarded(cfg, local, s3, run, s);
    GuardedConverges(cfg, local, s3, run, s, k);
  }

  // ---- the first backfill of a key ----

  predicate Removes(l: Label) { l.Evict? || l.DeleteLocal? || l.DeleteS3? }

  /** A key that is not in the local tier has never been: it has no upload, and what was fetched is what S3 has. */
  ghost predicate Untouched(s: State, k: Key) {
    && Total(s, OfKey(k)) == 0
    && (forall c: nat :: !ClientHas(s.At(c), k))
    && (forall c: nat :: s.At(c).Fetched? && s.At(c).key == k ==> Lookup(s.s3, k) == Some(s.At(c).body))
  }

  lemma UntouchedIsNotCarried(s: State, k: Key, b: Bytes)
    requires Untouched(s, k)
    ensures OnlyCarries(s, k, b) && forall w :: 0 <= w < |s.workers| ==> !WorkerHas(s.workers[w], k)
  {
    TotalNonNegative(s, OfKey(k));
    SumWorkersNonNegative(s.workers, OfKey(k));
    forall w | 0 <= w < |s.workers| ensures !WorkerHas(s.workers[w], k) {
      assert WorkerWeight(s.workers[w], OfKey(k)) <= 0;
    }
    forall c: nat ensures !ClientCarries(s.At(c), k) { assert !ClientHas(s.At(c), k); }
  }

  lemma ClientKeepsUntouched(cfg: Config, s: State, l: Label, s': State, k: Key)
    requires ClientStep(cfg, s, l) == Some(s') && !Removes(l) && k !in s.local && k !in s'.local && Untouched(s, k)
    ensures Untouched(s', k)
  {
    ClientTotals(cfg, s, l, s', OfKey(k));
    if l.Send? { assert !ClientHas(s.At(l.c), k); }
    forall c: nat
      ensures !ClientHas(s'.At(c), k)
      ensures s'.At(c).Fetched? && s'.At(c).key == k ==> Lookup(s'.s3, k) == Some(s'.At(c).body)
    {
      ClientStaysAway(cfg, s, l, s', k, c);
    }
  }

  lemma ClientStaysAway(cfg: Config, s: State, l: Label, s': State, k: Key, c: nat)
    requires ClientStep(cfg, s, l) == Some(s') && !Removes(l) && k !in s.local && k !in s'.local
    requires !ClientHas(s.At(c), k) && (l.SyncRead? || l.SyncApply? || l.SyncDone? ==> !ClientHas(s.At(l.c), k))
    requires s.At(c).Fetched? && s.At(c).key == k ==> Lookup(s.s3, k) == Some(s.At(c).body)
    ensures !ClientHas(s'.At(c), k)
    ensures s'.At(c).Fetched? && s'.At(c).key == k ==> Lookup(s'.s3, k) == Some(s'.At(c).body)
  {
    if l.SyncRead? || l.SyncApply? || l.SyncDone? { SyncStaysAway(cfg, s, l, s', k, c); }
  }

  lemma SyncStaysAway(cfg: Config, s: State, l: Label, s': State, k: Key, c: nat)
    requires ClientStep(cfg, s, l) == Some(s') && (l.SyncRead? || l.SyncApply? || l.SyncDone?)
    requires !ClientHas(s.At(c), k) && !ClientHas(s.At(l.c), k)
    ensures !ClientHas(s'.At(c), k) && Lookup(s'.s3, k) == Lookup(s.s3, k)
    ensures s'.At(c).Fetched? ==> s'.At(c) == s.At(c)
  {
  }

  lemma UploaderKeepsUntouched(cfg: Config, s: State, l: Label, s': State, k: Key)
    requires UploaderStep(cfg, s, l) == Some(s') && Untouched(s, k)
    ensures Untouched(s', k)
  {
    UploaderTotals(cfg, s, l, s', OfKey(k));
    KeyKept(cfg, s, l, k);
    WorkerMoves(cfg, s, l, s');
    UploaderKeepsTiers(cfg, s, l, s');
    UntouchedIsNotCarried(s, k, []);
    if l.Apply? { assert !WorkerHas(s.workers[l.w], k); }
    forall c: nat ensures s'.At(c) == s.At(c) { }
  }

  lemma {:induction false} UntouchedRun(cfg: Config, local: map<Key, Bytes>, s3: map<Key, Bytes>, run: seq<Label>,
      s: State)
    requires Exec(cfg, Init(cfg, local, s3), run) == Some(s)
    requires forall i :: 0 <= i < |run| ==> !Removes(run[i])
    ensures forall k :: k !in s.local ==> Untouched(s, k)
    decreases |run|
  {
    if run == [] {
      forall k ensures Total(s, OfKey(k)) == 0 { InitEmpty(cfg, local, s3, OfKey(k)); }
    } else {
      var mid, l := Exec(cfg, Init(cfg, local, s3), run[..|run| - 1]).value, run[|run| - 1];
      UntouchedRun(cfg, local, s3, run[..|run| - 1], mid);
      forall k | k !in s.local ensures Untouched(s, k) {
        if ClientStep(cfg, mid, l).Some? {
          ClientLocal(cfg, mid, l, s, k);
          ClientKeepsUntouched(cfg, mid, l, s, k);
        } else {
          UploaderKeepsTiers(cfg, mid, l, s);
          UploaderKeepsUntouched(cfg, mid, l, s, k);
        }
      }
    }
  }

  /** While nothing has been evicted or deleted, a backfill of a key that is not there yet keeps to the guard. */
  lemma FirstBackfillIsGuarded(cfg: Config, local: map<Key, Bytes>, s3: map<Key, Bytes>, run: seq<Label>, s: State,
      c: nat, ok: bool)
    requires Exec(cfg, Init(cfg, local, s3), run) == Some(s) && forall i :: 0 <= i < |run| ==> !Removes(run[i])
    requires s.At(c).Fetched? && s.At(c).key !in s.local
    ensures Guard(s, Fill(c, ok))
  {
    UntouchedRun(cfg, local, s3, run, s);
    UntouchedIsNotCarried(s, s.At(c).key, s.At(c).body);
  }
}
