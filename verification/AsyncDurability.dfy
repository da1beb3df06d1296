/** What an acknowledged asynchronous Put guarantees when every Put of a key carries the same bytes. */
module AsyncDurability {
  import opened Base
  import opened AsyncUpload
  import opened AsyncAccounting
  import opened AsyncTermination

  ghost predicate Holds(f: Key -> Bytes, m: map<Key, Bytes>) { forall k :: k in m ==> m[k] == f(k) }

  /** A content-addressed label: a Put carries f(k), and nothing is deleted. */
  predicate Addressed(f: Key -> Bytes, l: Label) {
    && (l.PutLocal? ==> l.body == f(l.key))
    && !l.DeleteLocal? && !l.DeleteS3?
  }

  ghost predicate AddressedRun(f: Key -> Bytes, run: seq<Label>) {
    forall i :: 0 <= i < |run| ==> Addressed(f, run[i])
  }

  ghost predicate ClientOk(f: Key -> Bytes, s3: map<Key, Bytes>, c: Client) {
    && (c.Syncing? ==> c.body == f(c.key) && (c.applied ==> c.key in s3))
    && (c.Fetched? ==> c.body == f(c.key))
  }

  ghost predicate WorkerOk(f: Key -> Bytes, s3: map<Key, Bytes>, worker: Worker) {
    worker.Uploading? ==> worker.body == f(worker.item.key) && (worker.applied ==> worker.item.key in s3)
  }

  ghost predicate DurableInv(f: Key -> Bytes, s: State) {
    && Holds(f, s.local) && Holds(f, s.s3)
    && (forall c :: c in s.clients ==> ClientOk(f, s.s3, s.clients[c]))
    && (forall w :: 0 <= w < |s.workers| ==> WorkerOk(f, s.s3, s.workers[w]))
    && (forall i :: 0 <= i < |s.uploaded| ==> s.uploaded[i].key in s.s3)
    && (forall k :: k in s.acked ==> k in s.s3 || Total(s, OfKey(k)) >= 1)
  }

  lemma ClientParts(cfg: Config, f: Key -> Bytes, s: State, l: Label, s': State)
    requires DurableInv(f, s) && Addressed(f, l) && ClientStep(cfg, s, l) == Some(s')
    ensures Holds(f, s'.local) && Holds(f, s'.s3) && (forall k :: k in s.s3 ==> k in s'.s3)
    ensures s'.workers == s.workers && s'.uploaded == s.uploaded
  {
    if l.SyncApply? || l.Fill? { assert ClientOk(f, s.s3, s.clients[l.c]); }
  }

  lemma ClientsOk(cfg: Config, f: Key -> Bytes, s: State, l: Label, s': State, c: nat)
    requires Holds(f, s.local) && Holds(f, s.s3) && (c in s.clients ==> ClientOk(f, s.s3, s.clients[c]))
    requires Addressed(f, l) && ClientStep(cfg, s, l) == Some(s') && c in s'.clients
    ensures ClientOk(f, s'.s3, s'.clients[c])
  {
  }

  /** A key is newly acknowledged by an accepted Enqueue or by a synchronous upload that S3 took. */
  lemma AckedHow(cfg: Config, s: State, l: Label, s': State, k: Key)
    requires ClientStep(cfg, s, l) == Some(s') && k in s'.acked && k !in s.acked
    ensures
      || (Accepted(cfg, s, l).Some? && Accepted(cfg, s, l).value.key == k)
      || (l.SyncDone? && s.At(l.c).Syncing? && s.At(l.c).applied && s.At(l.c).key == k)
  {
  }

  lemma AckKept(cfg: Config, f: Key -> Bytes, s: State, l: Label, s': State, k: Key)
    requires DurableInv(f, s) && Addressed(f, l) && ClientStep(cfg, s, l) == Some(s') && k in s'.acked
    ensures k in s'.s3 || Total(s', OfKey(k)) >= 1
  {
    ClientTotals(cfg, s, l, s', OfKey(k));
    TotalNonNegative(s, OfKey(k));
    ClientParts(cfg, f, s, l, s');
    if k !in s.acked {
      AckedHow(cfg, s, l, s', k);
      if l.SyncDone? { assert ClientOk(f, s.s3, s.clients[l.c]); }
    }
  }

  lemma DurableClient(cfg: Config, f: Key -> Bytes, s: State, l: Label, s': State)
    requires DurableInv(f, s) && Addressed(f, l) && ClientStep(cfg, s, l) == Some(s')
    ensures DurableInv(f, s')
  {
    ClientParts(cfg, f, s, l, s');
    forall c | c in s'.clients ensures ClientOk(f, s'.s3, s'.clients[c]) { ClientsOk(cfg, f, s, l, s', c); }
    forall k | k in s'.acked ensures k in s'.s3 || Total(s', OfKey(k)) >= 1 { AckKept(cfg, f, s, l, s', k); }
    forall w | 0 <= w < |s'.workers| ensures WorkerOk(f, s'.s3, s'.workers[w]) {
      assert WorkerOk(f, s.s3, s.workers[w]);
    }
  }

  lemma DurableUploader(cfg: Config, f: Key -> Bytes, s: State, l: Label, s': State)
    requires DurableInv(f, s) && UploaderStep(cfg, s, l) == Some(s')
    ensures DurableInv(f, s')
  {
    S3OnlyGrows(cfg, s, l, s');
    DurableParts(cfg, f, s, l, s');
    forall k | k in s'.acked ensures k in s'.s3 || Total(s', OfKey(k)) >= 1 {
      UploaderTotals(cfg, s, l, s', OfKey(k));
      KeyKept(cfg, s, l, k);
    }
    forall c | c in s'.clients ensures ClientOk(f, s'.s3, s'.clients[c]) { assert ClientOk(f, s.s3, s.clients[c]); }
  }

  lemma S3OnlyGrows(cfg: Config, s: State, l: Label, s': State)
    requires UploaderStep(cfg, s, l) == Some(s')
    ensures forall k :: k in s.s3 ==> k in s'.s3
    ensures s'.local == s.local && s'.clients == s.clients && s'.acked == s.acked
  {
  }

  lemma DurableParts(cfg: Config, f: Key -> Bytes, s: State, l: Label, s': State)
    requires DurableInv(f, s) && UploaderStep(cfg, s, l) == Some(s')
    ensures Holds(f, s'.s3)
    ensures forall w :: 0 <= w < |s'.workers| ==> WorkerOk(f, s'.s3, s'.workers[w])
    ensures forall i :: 0 <= i < |s'.uploaded| ==> s'.uploaded[i].key in s'.s3
  {
    if l.Read? || l.Apply? || l.Finish? { assert WorkerOk(f, s.s3, s.workers[l.w]); }
    S3OnlyGrows(cfg, s, l, s');
    forall w | 0 <= w < |s'.workers| ensures WorkerOk(f, s'.s3, s'.workers[w]) {
      UploaderWorkers(cfg, s, l, s');
      WorkersOk(cfg, f, s, l, s', w);
    }
  }

  lemma WorkersOk(cfg: Config, f: Key -> Bytes, s: State, l: Label, s': State, w: nat)
    requires Holds(f, s.local) && UploaderStep(cfg, s, l) == Some(s')
    requires w < |s.workers| && |s'.workers| == |s.workers| && WorkerOk(f, s.s3, s.workers[w])
    ensures WorkerOk(f, s'.s3, s'.workers[w])
  {
    if l.Apply? { AppliedOk(cfg, f, s, l.w, s', w); }
    else if l.Read? { ReadOk(cfg, f, s, l.w, l.ok, s', w); }
    else { OtherWorkers(cfg, s, l, s', w); }
  }

  lemma AppliedOk(cfg: Config, f: Key -> Bytes, s: State, a: nat, s': State, w: nat)
    requires UploaderStep(cfg, s, Apply(a)) == Some(s') && w < |s.workers| && WorkerOk(f, s.s3, s.workers[w])
    ensures |s'.workers| == |s.workers| && WorkerOk(f, s'.s3, s'.workers[w])
  {
  }

  lemma ReadOk(cfg: Config, f: Key -> Bytes, s: State, a: nat, ok: bool, s': State, w: nat)
    requires Holds(f, s.local) && UploaderStep(cfg, s, Read(a, ok)) == Some(s')
    requires w < |s.workers| && WorkerOk(f, s.s3, s.workers[w])
    ensures |s'.workers| == |s.workers| && WorkerOk(f, s'.s3, s'.workers[w])
  {
  }

  lemma OtherWorkers(cfg: Config, s: State, l: Label, s': State, w: nat)
    requires UploaderStep(cfg, s, l) == Some(s') && !l.Apply? && !l.Read? && w < |s.workers|
    ensures s'.s3 == s.s3 && |s'.workers| == |s.workers|
    ensures s'.workers[w] == s.workers[w] || !s'.workers[w].Uploading?
  {
  }

  lemma {:induction false} DurableRun(cfg: Config, f: Key -> Bytes, local: map<Key, Bytes>, s3: map<Key, Bytes>,
      run: seq<Label>, s: State)
    requires Holds(f, local) && Holds(f, s3) && AddressedRun(f, run) && Exec(cfg, Init(cfg, local, s3), run) == Some(s)
    ensures DurableInv(f, s)
    decreases |run|
  {
    if run != [] {
      var mid := Exec(cfg, Init(cfg, local, s3), run[..|run| - 1]).value;
      DurableRun(cfg, f, local, s3, run[..|run| - 1], mid);
      if ClientStep(cfg, mid, run[|run| - 1]).Some? { DurableClient(cfg, f, mid, run[|run| - 1], s); }
      else { DurableUploader(cfg, f, mid, run[|run| - 1], s); }
    }
  }

  /**
    With any number of workers, evictions, backfills and S3 failures, an acknowledged key is in S3 with
    its bytes, or its upload is queued, in a worker's hands or asleep, or it is in the ledger of losses.
   */
  lemma Durability(cfg: Config, f: Key -> Bytes, local: map<Key, Bytes>, s3: map<Key, Bytes>, run: seq<Label>,
      s: State, k: Key)
    requires Holds(f, local) && Holds(f, s3) && AddressedRun(f, run) && Exec(cfg, Init(cfg, local, s3), run) == Some(s)
    requires k in s.acked
    ensures
      || (k in s.s3 && s.s3[k] == f(k))
      || InSeq(s.queue, k) || InHand(s.workers, k) || InSeq(s.sleepers, k)
      || InSeq(s.missing, k) || InSeq(s.exhausted, k) || InSeq(s.dropped, k)
  {
    DurableRun(cfg, f, local, s3, run, s);
    if k !in s.s3 {
      TotalNonNegative(s, OfKey(k));
      if Sum(Queued, s.queue, OfKey(k)) >= 1 { SumFinds(Queued, s.queue, OfKey(k), k); }
      else if SumWorkers(s.workers, OfKey(k)) >= 1 { SumWorkersFinds(s.workers, OfKey(k), k); }
      else if Sum(Asleep, s.sleepers, OfKey(k)) >= 1 { SumFinds(Asleep, s.sleepers, OfKey(k), k); }
      else if Sum(Missing, s.missing, OfKey(k)) >= 1 { SumFinds(Missing, s.missing, OfKey(k), k); }
      else if Sum(Exhausted, s.exhausted, OfKey(k)) >= 1 { SumFinds(Exhausted, s.exhausted, OfKey(k), k); }
      else if Sum(Dropped, s.dropped, OfKey(k)) >= 1 { SumFinds(Dropped, s.dropped, OfKey(k), k); }
      else {
        SumFinds(Uploaded, s.uploaded, OfKey(k), k);
      }
    }
  }

  /** A step by which some Put returns nil without its upload having been accepted by the queue. */
  predicate AcksUnqueued(cfg: Config, s: State, l: Label) { Acknowledges(cfg, s, l) && Accepted(cfg, s, l).None? }

  /**
    A full or closed queue loses nothing: in any such run a Put whose upload it did not take returns nil only
    when S3 has its bytes already, and everything on the ledger of losses was accepted before.
   */
  lemma FullQueueLosesNothing(cfg: Config, f: Key -> Bytes, local: map<Key, Bytes>, s3: map<Key, Bytes>,
      run: seq<Label>, s: State, l: Label, s': State)
    requires Holds(f, local) && Holds(f, s3) && AddressedRun(f, run) && Exec(cfg, Init(cfg, local, s3), run) == Some(s)
    requires Next(cfg, s, l) == Some(s')
    ensures AcksUnqueued(cfg, s, l) ==> Lookup(s'.s3, s.At(l.c).key) == Some(f(s.At(l.c).key))
    ensures |s.missing| + |s.exhausted| + |s.dropped| <= TrueEnqueues(cfg, Init(cfg, local, s3), run)
  {
    Conservation(cfg, local, s3, run, s);
    DurableRun(cfg, f, local, s3, run, s);
    if AcksUnqueued(cfg, s, l) { assert ClientOk(f, s.s3, s.clients[l.c]); }
  }

  /** After the queue is closed every Put that returns nil finds its entry in S3. */
  lemma AckAfterStopIsStored(cfg: Config, f: Key -> Bytes, local: map<Key, Bytes>, s3: map<Key, Bytes>,
      run: seq<Label>, s: State, l: Label, s': State)
    requires Holds(f, local) && Holds(f, s3) && AddressedRun(f, run) && Exec(cfg, Init(cfg, local, s3), run) == Some(s)
    requires !QueueOpen(s) && Next(cfg, s, l) == Some(s') && Acknowledges(cfg, s, l)
    ensures Lookup(s.s3, s.At(l.c).key) == Some(f(s.At(l.c).key))
  {
    AckAfterCloseIsInS3(cfg, s, l, s');
    DurableRun(cfg, f, local, s3, run, s);
    assert ClientOk(f, s.s3, s.clients[l.c]);
  }
}
