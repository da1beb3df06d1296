/**
  Where every accepted upload is. A weight assigns a number to an item in a place; every step of the
  machine moves at most one item, so one lemma says how any total changes. Conservation, termination
  and the bounds on retries are this lemma at different weights.
 */
module AsyncAccounting {
  import opened Base
  import opened AsyncUpload

  datatype Place =
    | Queued
    | Held
    | InUpload(applied: bool)
    | Asleep
    | Uploaded
    | Missing
    | Exhausted
    | Dropped

  type Weight = (Place, Item) -> int

  function Sum(p: Place, items: seq<Item>, f: Weight): int {
    if items == [] then 0 else Sum(p, items[..|items| - 1], f) + f(p, items[|items| - 1])
  }

  function WorkerWeight(worker: Worker, f: Weight): int {
    match worker
    case Holding(it) => f(Held, it)
    case Uploading(it, _, applied) => f(InUpload(applied), it)
    case _ => 0
  }

  function SumWorkers(workers: seq<Worker>, f: Weight): int {
    if workers == [] then 0 else SumWorkers(workers[..|workers| - 1], f) + WorkerWeight(workers[|workers| - 1], f)
  }

  function Total(s: State, f: Weight): int {
    Sum(Queued, s.queue, f) + SumWorkers(s.workers, f) + Sum(Asleep, s.sleepers, f)
    + Sum(Uploaded, s.uploaded, f) + Sum(Missing, s.missing, f) + Sum(Exhausted, s.exhausted, f)
    + Sum(Dropped, s.dropped, f)
  }

  // ---- sums ----

  lemma SumAppend(p: Place, items: seq<Item>, it: Item, f: Weight)
    ensures Sum(p, items + [it], f) == Sum(p, items, f) + f(p, it)
  {
    assert (items + [it])[..|items|] == items;
  }

  lemma {:induction false} SumRemove(p: Place, items: seq<Item>, i: nat, f: Weight)
    requires i < |items|
    ensures Sum(p, items[..i] + items[i + 1..], f) == Sum(p, items, f) - f(p, items[i])
    decreases |items|
  {
    var n := |items| - 1;
    if i == n {
      assert items[..i] + items[i + 1..] == items[..n];
    } else {
      SumRemove(p, items[..n], i, f);
      var rest := items[..n][..i] + items[..n][i + 1..];
      assert items[..i] + items[i + 1..] == rest + [items[n]];
      SumAppend(p, rest, items[n], f);
    }
  }

  lemma SumFirst(p: Place, items: seq<Item>, f: Weight)
    requires items != []
    ensures Sum(p, items[1..], f) == Sum(p, items, f) - f(p, items[0])
  {
    SumRemove(p, items, 0, f);
    assert items[..0] + items[1..] == items[1..];
  }

  lemma {:induction false} SumWorkersUpdate(workers: seq<Worker>, w: nat, worker: Worker, f: Weight)
    requires w < |workers|
    ensures SumWorkers(workers[w := worker], f)
        == SumWorkers(workers, f) - WorkerWeight(workers[w], f) + WorkerWeight(worker, f)
    decreases |workers|
  {
    var n := |workers| - 1;
    if w == n {
      assert workers[w := worker][..n] == workers[..n];
    } else {
      SumWorkersUpdate(workers[..n], w, worker, f);
      assert workers[w := worker][..n] == workers[..n][w := worker];
    }
  }

  lemma {:induction false} SumWorkersIdle(n: nat, f: Weight)
    ensures SumWorkers(seq(n, _ => Idle), f) == 0
  {
    if n > 0 {
      SumWorkersIdle(n - 1, f);
      assert seq(n, _ => Idle)[..n - 1] == seq(n - 1, _ => Idle);
    }
  }

  /** Where h, nowhere negative, is zero, f is at most g. */
  ghost predicate BoundedWhereZero(f: Weight, g: Weight, h: Weight) {
    && (forall p, it :: h(p, it) >= 0)
    && (forall p, it :: h(p, it) == 0 ==> f(p, it) <= g(p, it))
  }

  lemma {:induction false} SumNonNegative(p: Place, items: seq<Item>, h: Weight)
    requires forall q, it :: h(q, it) >= 0
    ensures Sum(p, items, h) >= 0
    ensures forall i :: 0 <= i < |items| ==> h(p, items[i]) <= Sum(p, items, h)
    decreases |items|
  {
    if items != [] {
      var rest := items[..|items| - 1];
      SumNonNegative(p, rest, h);
      assert forall i :: 0 <= i < |rest| ==> items[i] == rest[i];
    }
  }

  lemma {:induction false} SumWorkersNonNegative(workers: seq<Worker>, h: Weight)
    requires forall q, it :: h(q, it) >= 0
    ensures SumWorkers(workers, h) >= 0
    ensures forall w :: 0 <= w < |workers| ==> WorkerWeight(workers[w], h) <= SumWorkers(workers, h)
    decreases |workers|
  {
    if workers != [] {
      var rest := workers[..|workers| - 1];
      SumWorkersNonNegative(rest, h);
      assert forall w :: 0 <= w < |rest| ==> workers[w] == rest[w];
    }
  }

  lemma {:induction false} SumBound(p: Place, items: seq<Item>, f: Weight, g: Weight, h: Weight)
    requires BoundedWhereZero(f, g, h) && Sum(p, items, h) == 0
    ensures Sum(p, items, f) <= Sum(p, items, g)
    decreases |items|
  {
    if items != [] {
      SumNonNegative(p, items[..|items| - 1], h);
      SumBound(p, items[..|items| - 1], f, g, h);
    }
  }

  lemma {:induction false} SumWorkersBound(workers: seq<Worker>, f: Weight, g: Weight, h: Weight)
    requires BoundedWhereZero(f, g, h) && SumWorkers(workers, h) == 0
    ensures SumWorkers(workers, f) <= SumWorkers(workers, g)
    decreases |workers|
  {
    if workers != [] {
      SumWorkersNonNegative(workers[..|workers| - 1], h);
      SumWorkersBound(workers[..|workers| - 1], f, g, h);
    }
  }

  lemma TotalNonNegative(s: State, h: Weight)
    requires forall p, it :: h(p, it) >= 0
    ensures Total(s, h) >= 0
    ensures
      && 0 <= Sum(Queued, s.queue, h) <= Total(s, h) && 0 <= SumWorkers(s.workers, h) <= Total(s, h)
      && 0 <= Sum(Asleep, s.sleepers, h) <= Total(s, h) && 0 <= Sum(Uploaded, s.uploaded, h) <= Total(s, h)
      && 0 <= Sum(Missing, s.missing, h) <= Total(s, h) && 0 <= Sum(Exhausted, s.exhausted, h) <= Total(s, h)
      && 0 <= Sum(Dropped, s.dropped, h) <= Total(s, h)
  {
    SumNonNegative(Queued, s.queue, h); SumWorkersNonNegative(s.workers, h); SumNonNegative(Asleep, s.sleepers, h);
    SumNonNegative(Uploaded, s.uploaded, h); SumNonNegative(Missing, s.missing, h);
    SumNonNegative(Exhausted, s.exhausted, h); SumNonNegative(Dropped, s.dropped, h);
  }

  lemma TotalBound(s: State, f: Weight, g: Weight, h: Weight)
    requires BoundedWhereZero(f, g, h) && Total(s, h) == 0
    ensures Total(s, f) <= Total(s, g)
  {
    TotalNonNegative(s, h);
    SumBound(Queued, s.queue, f, g, h); SumWorkersBound(s.workers, f, g, h); SumBound(Asleep, s.sleepers, f, g, h);
    SumBound(Uploaded, s.uploaded, f, g, h); SumBound(Missing, s.missing, f, g, h);
    SumBound(Exhausted, s.exhausted, f, g, h); SumBound(Dropped, s.dropped, f, g, h);
  }

  // ---- the one lemma about steps ----

  /** How a step of the uploader changes the total of a weight. */
  function UploaderDelta(cfg: Config, s: State, l: Label, f: Weight): int
    requires UploaderStep(cfg, s, l).Some?
  {
    match l
    case Take(w) => f(Held, s.queue[0]) - f(Queued, s.queue[0])
    case Read(w, ok) =>
      var it := s.workers[w].item;
      (if ok && it.key in s.local then f(InUpload(false), it) else f(Missing, it)) - f(Held, it)
    case Apply(w) => f(InUpload(true), s.workers[w].item) - f(InUpload(false), s.workers[w].item)
    case Finish(w, ok) =>
      var it := s.workers[w].item;
      var again := it.(attempts := it.attempts + 1);
      (if ok then f(Uploaded, it) else if again.attempts < cfg.maxRetry then f(Asleep, again) else f(Exhausted, again))
      - f(InUpload(s.workers[w].applied), it)
    case Wake(i) =>
      if !QueueOpen(s) then 0
      else
        (if |s.queue| < cfg.capacity then f(Queued, s.sleepers[i]) else f(Dropped, s.sleepers[i]))
        - f(Asleep, s.sleepers[i])
    case _ => 0
  }

  /** The item, if any, that a client's step has the queue accept. */
  function Accepted(cfg: Config, s: State, l: Label): Option<Item> {
    match l
    case Send(c) =>
      if s.At(c).Admitted? && QueueOpen(s) && |s.queue| < cfg.capacity
      then Some(Item(s.accepted, s.At(c).key, 0)) else None
    case _ => None
  }

  lemma FinishTotals(cfg: Config, s: State, w: nat, ok: bool, s': State, f: Weight)
    requires UploaderStep(cfg, s, Finish(w, ok)) == Some(s')
    ensures Total(s', f) == Total(s, f) + UploaderDelta(cfg, s, Finish(w, ok), f)
  {
    var it := s.workers[w].item;
    var again := it.(attempts := it.attempts + 1);
    SumWorkersUpdate(s.workers, w, Idle, f);
    if ok { SumAppend(Uploaded, s.uploaded, it, f); }
    else if again.attempts < cfg.maxRetry { SumAppend(Asleep, s.sleepers, again, f); }
    else { SumAppend(Exhausted, s.exhausted, again, f); }
  }

  lemma WakeTotals(cfg: Config, s: State, i: nat, s': State, f: Weight)
    requires UploaderStep(cfg, s, Wake(i)) == Some(s')
    ensures Total(s', f) == Total(s, f) + UploaderDelta(cfg, s, Wake(i), f)
  {
    if QueueOpen(s) {
      SumRemove(Asleep, s.sleepers, i, f);
      if |s.queue| < cfg.capacity { WakeQueues(cfg, s, i, s', f); } else { WakeDrops(cfg, s, i, s', f); }
    }
  }

  lemma WakeQueues(cfg: Config, s: State, i: nat, s': State, f: Weight)
    requires UploaderStep(cfg, s, Wake(i)) == Some(s') && QueueOpen(s) && |s.queue| < cfg.capacity
    requires Sum(Asleep, s.sleepers[..i] + s.sleepers[i + 1..], f)
          == Sum(Asleep, s.sleepers, f) - f(Asleep, s.sleepers[i])
    ensures Total(s', f) == Total(s, f) + f(Queued, s.sleepers[i]) - f(Asleep, s.sleepers[i])
  {
    SumAppend(Queued, s.queue, s.sleepers[i], f);
  }

  lemma WakeDrops(cfg: Config, s: State, i: nat, s': State, f: Weight)
    requires UploaderStep(cfg, s, Wake(i)) == Some(s') && QueueOpen(s) && |s.queue| >= cfg.capacity
    requires Sum(Asleep, s.sleepers[..i] + s.sleepers[i + 1..], f)
          == Sum(Asleep, s.sleepers, f) - f(Asleep, s.sleepers[i])
    ensures Total(s', f) == Total(s, f) + f(Dropped, s.sleepers[i]) - f(Asleep, s.sleepers[i])
  {
    SumAppend(Dropped, s.dropped, s.sleepers[i], f);
  }

  lemma ReadTotals(cfg: Config, s: State, w: nat, ok: bool, s': State, f: Weight)
    requires UploaderStep(cfg, s, Read(w, ok)) == Some(s')
    ensures Total(s', f) == Total(s, f) + UploaderDelta(cfg, s, Read(w, ok), f)
  {
    SumWorkersUpdate(s.workers, w, s'.workers[w], f);
    SumAppend(Missing, s.missing, s.workers[w].item, f);
  }

  lemma UploaderTotals(cfg: Config, s: State, l: Label, s': State, f: Weight)
    requires UploaderStep(cfg, s, l) == Some(s')
    ensures Total(s', f) == Total(s, f) + UploaderDelta(cfg, s, l, f)
  {
    if l.Take? { SumFirst(Queued, s.queue, f); SumWorkersUpdate(s.workers, l.w, s'.workers[l.w], f); }
    else if l.Read? { ReadTotals(cfg, s, l.w, l.ok, s', f); }
    else if l.Finish? { FinishTotals(cfg, s, l.w, l.ok, s', f); }
    else if l.Wake? { WakeTotals(cfg, s, l.i, s', f); }
    else if l.Apply? || l.Exit? { SumWorkersUpdate(s.workers, l.w, s'.workers[l.w], f); }
  }

  /** A client's step moves no item, and at most adds the accepted one to the queue. */
  lemma ClientItems(cfg: Config, s: State, l: Label, s': State)
    requires ClientStep(cfg, s, l) == Some(s')
    ensures s'.queue == match Accepted(cfg, s, l) case Some(it) => s.queue + [it] case None => s.queue
    ensures s'.workers == s.workers && s'.sleepers == s.sleepers && s'.uploaded == s.uploaded
    ensures s'.missing == s.missing && s'.exhausted == s.exhausted && s'.dropped == s.dropped
    ensures s'.accepted == s.accepted + if Accepted(cfg, s, l).Some? then 1 else 0
    ensures s'.phase == s.phase || s'.phase.Crashed?
  {
    if !l.Send? { OnlySendEnqueues(cfg, s, l, s'); }
  }

  lemma OnlySendEnqueues(cfg: Config, s: State, l: Label, s': State)
    requires ClientStep(cfg, s, l) == Some(s') && !l.Send?
    ensures s'.queue == s.queue && s'.workers == s.workers && s'.sleepers == s.sleepers && s'.uploaded == s.uploaded
    ensures s'.missing == s.missing && s'.exhausted == s.exhausted && s'.dropped == s.dropped
    ensures s'.accepted == s.accepted && s'.phase == s.phase
  {
  }

  lemma ClientTotals(cfg: Config, s: State, l: Label, s': State, f: Weight)
    requires ClientStep(cfg, s, l) == Some(s')
    ensures
      var it := Accepted(cfg, s, l);
      Total(s', f) == Total(s, f) + if it.Some? then f(Queued, it.value) else 0
  {
    ClientItems(cfg, s, l, s');
    if Accepted(cfg, s, l).Some? { SumAppend(Queued, s.queue, Accepted(cfg, s, l).value, f); }
  }

  // ---- conservation ----

  function One(): Weight { (p, it) => 1 }

  function WithId(id: nat): Weight { (p, it: Item) => if it.id == id then 1 else 0 }

  /** `a` for item id, nothing for any other. */
  function Allowance(a: int, id: nat): Weight { (p, it: Item) => if it.id == id then a else 0 }

  lemma {:induction false} SumAllowance(p: Place, items: seq<Item>, a: int, id: nat)
    ensures Sum(p, items, Allowance(a, id)) == a * Sum(p, items, WithId(id))
    decreases |items|
  {
    if items != [] { SumAllowance(p, items[..|items| - 1], a, id); }
  }

  lemma {:induction false} SumWorkersAllowance(workers: seq<Worker>, a: int, id: nat)
    ensures SumWorkers(workers, Allowance(a, id)) == a * SumWorkers(workers, WithId(id))
    decreases |workers|
  {
    if workers != [] { SumWorkersAllowance(workers[..|workers| - 1], a, id); }
  }

  lemma Distribute(a: int, x: int, y: int)
    ensures a * (x + y) == a * x + a * y
  {
  }

  /** An item in one place at most is allowed its allowance once. */
  lemma AllowanceOnce(s: State, a: nat, id: nat)
    requires 0 <= Total(s, WithId(id)) <= 1
    ensures Total(s, Allowance(a, id)) <= a
  {
    var f := WithId(id);
    SumAllowance(Queued, s.queue, a, id); SumWorkersAllowance(s.workers, a, id);
    SumAllowance(Asleep, s.sleepers, a, id);
    SumAllowance(Uploaded, s.uploaded, a, id); SumAllowance(Missing, s.missing, a, id);
    SumAllowance(Exhausted, s.exhausted, a, id); SumAllowance(Dropped, s.dropped, a, id);
    var q, w, z, u, m, e, d := Sum(Queued, s.queue, f), SumWorkers(s.workers, f), Sum(Asleep, s.sleepers, f),
      Sum(Uploaded, s.uploaded, f), Sum(Missing, s.missing, f), Sum(Exhausted, s.exhausted, f),
      Sum(Dropped, s.dropped, f);
    Scaled(a, q, w, z, u, m, e, d);
  }

  lemma Scaled(a: nat, q: int, w: int, z: int, u: int, m: int, e: int, d: int)
    requires 0 <= q + w + z + u + m + e + d <= 1
    ensures a * q + a * w + a * z + a * u + a * m + a * e + a * d <= a
  {
    Distribute(a, q, w);
    Distribute(a, q + w, z);
    Distribute(a, q + w + z, u);
    Distribute(a, q + w + z + u, m);
    Distribute(a, q + w + z + u + m, e);
    Distribute(a, q + w + z + u + m + e, d);
  }

  /** The number of workers with an item in hand. */
  function Busy(workers: seq<Worker>): nat {
    if workers == [] then 0
    else
      var last := workers[|workers| - 1];
      Busy(workers[..|workers| - 1]) + if last.Holding? || last.Uploading? then 1 else 0
  }

  lemma {:induction false} SumOne(p: Place, items: seq<Item>)
    ensures Sum(p, items, One()) == |items|
    decreases |items|
  {
    if items != [] { SumOne(p, items[..|items| - 1]); }
  }

  lemma {:induction false} SumWorkersOne(workers: seq<Worker>)
    ensures SumWorkers(workers, One()) == Busy(workers)
    decreases |workers|
  {
    if workers != [] { SumWorkersOne(workers[..|workers| - 1]); }
  }

  /** An Enqueue returns true. */
  predicate Enqueues(cfg: Config, s: State, l: Label) { ClientStep(cfg, s, l).Some? && Accepted(cfg, s, l).Some? }

  /** The number of Enqueue calls of a run that returned true. */
  ghost function TrueEnqueues(cfg: Config, s: State, run: seq<Label>): nat
    decreases |run|
  {
    if run == [] then 0
    else
      var mid := Exec(cfg, s, run[..|run| - 1]);
      if mid.None? then 0
      else TrueEnqueues(cfg, s, run[..|run| - 1]) + if Enqueues(cfg, mid.value, run[|run| - 1]) then 1 else 0
  }

  /** The accounting invariant: every accepted id is in exactly one place, every other id in none. */
  ghost predicate Accounted(cfg: Config, s: State) {
    && (forall id: nat :: Total(s, WithId(id)) == if id < s.accepted then 1 else 0)
    && Total(s, One()) == s.accepted
    && |s.queue| <= cfg.capacity
    && |s.workers| == cfg.workers
  }

  /** No step of the uploader makes or loses an item, or changes which it is. */
  lemma UploaderMovesOne(cfg: Config, s: State, l: Label, id: nat)
    requires UploaderStep(cfg, s, l).Some?
    ensures UploaderDelta(cfg, s, l, WithId(id)) == 0 && UploaderDelta(cfg, s, l, One()) == 0
  {
  }

  lemma StepShape(cfg: Config, s: State, l: Label, s': State)
    requires |s.queue| <= cfg.capacity && Next(cfg, s, l) == Some(s')
    ensures |s'.queue| <= cfg.capacity && |s'.workers| == |s.workers|
    ensures s'.accepted == s.accepted + if ClientStep(cfg, s, l).Some? && Accepted(cfg, s, l).Some? then 1 else 0
    ensures ClientStep(cfg, s, l).None? ==> Accepted(cfg, s, l).None?
  {
    if ClientStep(cfg, s, l).Some? { ClientItems(cfg, s, l, s'); } else { UploaderCounts(cfg, s, l, s'); }
  }

  lemma UploaderCounts(cfg: Config, s: State, l: Label, s': State)
    requires |s.queue| <= cfg.capacity && UploaderStep(cfg, s, l) == Some(s')
    ensures |s'.queue| <= cfg.capacity && |s'.workers| == |s.workers| && s'.accepted == s.accepted
    ensures Accepted(cfg, s, l).None?
  {
  }

  lemma AccountedStep(cfg: Config, s: State, l: Label, s': State)
    requires Accounted(cfg, s) && Next(cfg, s, l) == Some(s')
    ensures Accounted(cfg, s')
  {
    StepShape(cfg, s, l, s');
    if ClientStep(cfg, s, l).Some? {
      ClientTotals(cfg, s, l, s', One());
      forall id: nat ensures Total(s', WithId(id)) == if id < s'.accepted then 1 else 0 {
        ClientTotals(cfg, s, l, s', WithId(id));
        assert Total(s, WithId(id)) == if id < s.accepted then 1 else 0;
      }
    } else {
      UploaderTotals(cfg, s, l, s', One());
      UploaderMovesOne(cfg, s, l, 0);
      forall id: nat ensures Total(s', WithId(id)) == if id < s'.accepted then 1 else 0 {
        UploaderTotals(cfg, s, l, s', WithId(id));
        UploaderMovesOne(cfg, s, l, id);
        assert Total(s, WithId(id)) == if id < s.accepted then 1 else 0;
      }
    }
  }

  lemma InitEmpty(cfg: Config, local: map<Key, Bytes>, s3: map<Key, Bytes>, f: Weight)
    ensures Total(Init(cfg, local, s3), f) == 0
  {
    SumWorkersIdle(cfg.workers, f);
  }

  lemma {:induction false} AccountedRun(cfg: Config, local: map<Key, Bytes>, s3: map<Key, Bytes>, run: seq<Label>,
      s: State)
    requires Exec(cfg, Init(cfg, local, s3), run) == Some(s)
    ensures Accounted(cfg, s) && s.accepted == TrueEnqueues(cfg, Init(cfg, local, s3), run)
    decreases |run|
  {
    var init := Init(cfg, local, s3);
    if run == [] {
      InitEmpty(cfg, local, s3, One());
      forall id: nat ensures Total(s, WithId(id)) == 0 { InitEmpty(cfg, local, s3, WithId(id)); }
    } else {
      var mid := Exec(cfg, init, run[..|run| - 1]).value;
      AccountedRun(cfg, local, s3, run[..|run| - 1], mid);
      AccountedStep(cfg, mid, run[|run| - 1], s);
      StepShape(cfg, mid, run[|run| - 1], s);
    }
  }

  /**
    In every run, the accepted uploads are exactly the true Enqueue results, each of them is in exactly
    one of queue, worker, sleeping, uploaded, local-missing, exhausted and dropped, and the queue never
    exceeds its capacity.
   */
  lemma Conservation(cfg: Config, local: map<Key, Bytes>, s3: map<Key, Bytes>, run: seq<Label>, s: State)
    requires Exec(cfg, Init(cfg, local, s3), run) == Some(s)
    ensures Accounted(cfg, s)
    ensures |s.queue| + Busy(s.workers) + |s.sleepers| + |s.uploaded| + |s.missing| + |s.exhausted| + |s.dropped|
         == TrueEnqueues(cfg, Init(cfg, local, s3), run)
  {
    AccountedRun(cfg, local, s3, run, s);
    SumOne(Queued, s.queue); SumOne(Asleep, s.sleepers); SumOne(Uploaded, s.uploaded); SumOne(Missing, s.missing);
    SumOne(Exhausted, s.exhausted); SumOne(Dropped, s.dropped); SumWorkersOne(s.workers);
  }

  // ---- from totals back to items ----

  /** One for every item of key k, wherever it is. */
  function OfKey(k: Key): Weight { (p, it: Item) => if it.key == k then 1 else 0 }

  lemma KeyKept(cfg: Config, s: State, l: Label, k: Key)
    requires UploaderStep(cfg, s, l).Some?
    ensures UploaderDelta(cfg, s, l, OfKey(k)) == 0
  {
  }

  ghost predicate InSeq(items: seq<Item>, k: Key) { exists i :: 0 <= i < |items| && items[i].key == k }

  ghost predicate InHand(workers: seq<Worker>, k: Key) {
    exists w :: 0 <= w < |workers| && (workers[w].Holding? || workers[w].Uploading?) && workers[w].item.key == k
  }

  /** A weight that counts items of key k only. */
  ghost predicate Counts(f: Weight, k: Key) { forall p, it: Item :: it.key != k ==> f(p, it) == 0 }

  lemma {:induction false} SumFinds(p: Place, items: seq<Item>, f: Weight, k: Key)
    requires Counts(f, k) && Sum(p, items, f) >= 1
    ensures InSeq(items, k)
    decreases |items|
  {
    var n := |items| - 1;
    if items[n].key != k {
      SumFinds(p, items[..n], f, k);
      var i :| 0 <= i < n && items[..n][i].key == k;
      assert items[i].key == k;
    }
  }

  lemma {:induction false} SumWorkersFinds(workers: seq<Worker>, f: Weight, k: Key)
    requires Counts(f, k) && SumWorkers(workers, f) >= 1
    ensures InHand(workers, k)
    decreases |workers|
  {
    var n := |workers| - 1;
    if WorkerWeight(workers[n], f) == 0 {
      SumWorkersFinds(workers[..n], f, k);
      var w :| 0 <= w < n && (workers[..n][w].Holding? || workers[..n][w].Uploading?) && workers[..n][w].item.key == k;
      assert workers[w].item.key == k;
    }
  }
}
