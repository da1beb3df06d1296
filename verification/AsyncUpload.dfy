/**
  Every interleaving of the hybrid backend's asynchronous upload: clients storing locally and
  enqueueing, the bounded queue, the workers, sleeping retries, the synchronous fallback, backfills,
  evictions, deletes, and Stop. An access of the local tier is one step here; HybridFiles says when the file
  store bears that out.
 */
module AsyncUpload {
  import opened Base

  datatype Config = Config(capacity: nat, maxRetry: nat, workers: nat) {
    predicate Valid() { capacity >= 1 && maxRetry >= 1 && workers >= 1 }
  }

  /** NewAsyncUploader and Start replace non-positive settings by their defaults. */
  function Configure(queueSize: int, maxRetry: int, workers: int): (cfg: Config)
    ensures cfg.Valid()
    ensures (queueSize >= 1 ==> cfg.capacity == queueSize) && (queueSize < 1 ==> cfg.capacity == 1000)
    ensures (maxRetry >= 1 ==> cfg.maxRetry == maxRetry) && (maxRetry < 1 ==> cfg.maxRetry == 3)
    ensures (workers >= 1 ==> cfg.workers == workers) && (workers < 1 ==> cfg.workers == 2)
  {
    Config(if queueSize <= 0 then 1000 else queueSize,
           if maxRetry <= 0 then 3 else maxRetry,
           if workers <= 0 then 2 else workers)
  }

  /** `id` numbers the accepted items; it guides no step. */
  datatype Item = Item(id: nat, key: Key, attempts: nat)

  /**
    Uploading holds the content of the local handle opened for the upload; `applied` says whether S3
    has taken it yet, for a request may fail after it took effect.
   */
  datatype Worker =
    | Idle
    | Holding(item: Item)
    | Uploading(item: Item, body: Bytes, applied: bool)
    | Exited

  datatype Client =
    | Away
    | Stored(key: Key)                                  // Hybrid.Put: the local write is done
    | Admitted(key: Key)                                // Enqueue has read running as true
    | FallingBack(key: Key)                             // Enqueue has returned false
    | Syncing(key: Key, body: Bytes, applied: bool)     // the synchronous upload is under way
    | Fetched(key: Key, body: Bytes)                    // Hybrid.Get: missed locally, read from S3

  /**
    uploaded, missing, exhausted and dropped list the items whose life has ended, by how it ended. acked and
    failed are the keys of which some Put has returned nil, and an error after its local write.
   */
  datatype State = State(
    local: map<Key, Bytes>,
    s3: map<Key, Bytes>,
    queue: seq<Item>,
    workers: seq<Worker>,
    sleepers: seq<Item>,
    clients: map<nat, Client>,
    phase: Phase,
    accepted: nat,
    uploaded: seq<Item>,
    missing: seq<Item>,
    exhausted: seq<Item>,
    dropped: seq<Item>,
    acked: set<Key>,
    failed: set<Key>)
  {
    function At(c: nat): Client { if c in clients then clients[c] else Away }
    function Goto(c: nat, client: Client): State { this.(clients := clients[c := client]) }
    function Work(w: nat, worker: Worker): State
      requires w < |workers|
    {
      this.(workers := workers[w := worker])
    }
  }

  /** Stop clears the running flag, then closes the queue, then waits for the workers. */
  datatype Phase = Running | Stopping | Closed | Stopped | Crashed

  function Init(cfg: Config, local: map<Key, Bytes>, s3: map<Key, Bytes>): State {
    State(local, s3, [], seq(cfg.workers, _ => Idle), [], map[], Running, 0, [], [], [], [], {}, {})
  }

  datatype Label =
    | PutLocal(c: nat, key: Key, body: Bytes)
    | CheckRunning(c: nat)
    | Send(c: nat)
    | SyncRead(c: nat, ok: bool)
    | SyncApply(c: nat)
    | SyncDone(c: nat, ok: bool)
    | Fetch(c: nat, key: Key)
    | Fill(c: nat, ok: bool)
    | Evict(key: Key)
    | DeleteLocal(key: Key)
    | DeleteS3(key: Key)
    | Take(w: nat)
    | Read(w: nat, ok: bool)
    | Apply(w: nat)
    | Finish(w: nat, ok: bool)
    | Wake(i: nat)
    | Exit(w: nat)
    | ClearRunning
    | Close
    | StopReturns

  predicate QueueOpen(s: State) { s.phase.Running? || s.phase.Stopping? }

  /** The client's side: Hybrid.Put, Hybrid.Get's backfill, deletes and evictions. */
  function ClientStep(cfg: Config, s: State, l: Label): Option<State> {
    match l
    case PutLocal(c, k, b) =>
      if s.At(c).Away? then Some(s.(local := s.local[k := b]).Goto(c, Stored(k))) else None
    case CheckRunning(c) =>
      if !s.At(c).Stored? then None
      else Some(s.Goto(c, if s.phase.Running? then Admitted(s.At(c).key) else FallingBack(s.At(c).key)))
    case Send(c) =>
      if !s.At(c).Admitted? then None
      else if !QueueOpen(s) then Some(s.(phase := Crashed))
      else if |s.queue| < cfg.capacity then
        Some(s.(queue := s.queue + [Item(s.accepted, s.At(c).key, 0)], accepted := s.accepted + 1,
                acked := s.acked + {s.At(c).key}).Goto(c, Away))
      else Some(s.Goto(c, FallingBack(s.At(c).key)))
    case SyncRead(c, ok) =>
      if !s.At(c).FallingBack? then None
      else if ok && s.At(c).key in s.local then Some(s.Goto(c, Syncing(s.At(c).key, s.local[s.At(c).key], false)))
      else Some(s.(failed := s.failed + {s.At(c).key}).Goto(c, Away))
    case SyncApply(c) =>
      if !s.At(c).Syncing? || s.At(c).applied then None
      else Some(s.(s3 := s.s3[s.At(c).key := s.At(c).body]).Goto(c, s.At(c).(applied := true)))
    case SyncDone(c, ok) =>
      if !s.At(c).Syncing? || (ok && !s.At(c).applied) then None
      else if ok then Some(s.(acked := s.acked + {s.At(c).key}).Goto(c, Away))
      else Some(s.(failed := s.failed + {s.At(c).key}).Goto(c, Away))
    case Fetch(c, k) =>
      if s.At(c).Away? && k !in s.local && k in s.s3 then Some(s.Goto(c, Fetched(k, s.s3[k]))) else None
    case Fill(c, ok) =>
      if !s.At(c).Fetched? then None
      else Some((if ok then s.(local := s.local[s.At(c).key := s.At(c).body]) else s).Goto(c, Away))
    case Evict(k) => Some(s.(local := s.local - {k}))
    case DeleteLocal(k) => Some(s.(local := s.local - {k}))
    case DeleteS3(k) => Some(s.(s3 := s.s3 - {k}))
    case _ => None
  }

  /** The uploader's side: worker and upload, the retry goroutines, and Stop. */
  function UploaderStep(cfg: Config, s: State, l: Label): Option<State> {
    match l
    case Take(w) =>
      if w < |s.workers| && s.workers[w].Idle? && s.queue != [] then
        Some(s.(queue := s.queue[1..]).Work(w, Holding(s.queue[0])))
      else None
    case Read(w, ok) =>
      if w >= |s.workers| || !s.workers[w].Holding? then None
      else
        var it := s.workers[w].item;
        if ok && it.key in s.local then Some(s.Work(w, Uploading(it, s.local[it.key], false)))
        else Some(s.(missing := s.missing + [it]).Work(w, Idle))
    case Apply(w) =>
      if w >= |s.workers| || !s.workers[w].Uploading? || s.workers[w].applied then None
      else Some(s.(s3 := s.s3[s.workers[w].item.key := s.workers[w].body]).Work(w, s.workers[w].(applied := true)))
    case Finish(w, ok) =>
      if w >= |s.workers| || !s.workers[w].Uploading? || (ok && !s.workers[w].applied) then None
      else
        var it := s.workers[w].item;
        var again := it.(attempts := it.attempts + 1);
        if ok then Some(s.(uploaded := s.uploaded + [it]).Work(w, Idle))
        else if again.attempts < cfg.maxRetry then Some(s.(sleepers := s.sleepers + [again]).Work(w, Idle))
        else Some(s.(exhausted := s.exhausted + [again]).Work(w, Idle))
    case Wake(i) =>
      if i >= |s.sleepers| then None
      else
        var s' := s.(sleepers := s.sleepers[..i] + s.sleepers[i + 1..]);
        if !QueueOpen(s) then Some(s.(phase := Crashed))
        else if |s.queue| < cfg.capacity then Some(s'.(queue := s.queue + [s.sleepers[i]]))
        else Some(s'.(dropped := s.dropped + [s.sleepers[i]]))
    case Exit(w) =>
      if w < |s.workers| && s.workers[w].Idle? && s.phase.Closed? && s.queue == [] then Some(s.Work(w, Exited))
      else None
    case ClearRunning => if s.phase.Running? then Some(s.(phase := Stopping)) else None
    case Close => if s.phase.Stopping? then Some(s.(phase := Closed)) else None
    case StopReturns =>
      if s.phase.Closed? && (forall w | 0 <= w < |s.workers| :: s.workers[w].Exited?) then Some(s.(phase := Stopped))
      else None
    case _ => None
  }

  /** A send on a closed channel ends the program, so a crashed state has no successor. */
  function Next(cfg: Config, s: State, l: Label): Option<State> {
    if s.phase.Crashed? then None
    else if ClientStep(cfg, s, l).Some? then ClientStep(cfg, s, l)
    else UploaderStep(cfg, s, l)
  }

  function Exec(cfg: Config, s: State, run: seq<Label>): Option<State>
    decreases |run|
  {
    if run == [] then Some(s)
    else
      var mid := Exec(cfg, s, run[..|run| - 1]);
      if mid.None? then None else Next(cfg, mid.value, run[|run| - 1])
  }
}
