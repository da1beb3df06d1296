/**
  The uploader as the code writes it, with one worker: Enqueue, the upload of one item, the worker's
  loop over the queue, the retry that wakes up, and Stop. Each method computes a function of the machine's state,
  and says besides what that is; each of these functions is where one certain run of the interleaving machine ends.
 */
module AsyncUploaderObject {
  import opened Base
  import opened AsyncUpload

  /** What happens to one upload: the local read, whether S3 takes the body, and what it answers. */
  datatype Trip = Trip(readOk: bool, applied: bool, putOk: bool) {
    predicate Ok() { applied && putOk }
  }

  // ---- what the methods compute ----

  function Enqueued(cfg: Config, s: State, key: Key): State {
    if s.phase.Running? && |s.queue| < cfg.capacity then
      s.(queue := s.queue + [Item(s.accepted, key, 0)], accepted := s.accepted + 1, acked := s.acked + {key})
    else s
  }

  /** The upload of an item that the worker has taken. */
  function Tried(cfg: Config, s: State, it: Item, trip: Trip): State {
    if !trip.readOk || it.key !in s.local then s.(missing := s.missing + [it])
    else
      var s3 := if trip.applied then s.s3[it.key := s.local[it.key]] else s.s3;
      var again := it.(attempts := it.attempts + 1);
      if trip.Ok() then s.(s3 := s3, uploaded := s.uploaded + [it])
      else if again.attempts < cfg.maxRetry then s.(s3 := s3, sleepers := s.sleepers + [again])
      else s.(s3 := s3, exhausted := s.exhausted + [again])
  }

  /** Every queued item is tried once, oldest first. */
  function Drained(cfg: Config, s: State, world: Item -> Trip): State
    decreases |s.queue|
  {
    if s.queue == [] then s
    else Drained(cfg, Tried(cfg, s.(queue := s.queue[1..]), s.queue[0], world(s.queue[0])), world)
  }

  /** A retry that wakes up goes to the back of the queue, or is dropped when that is full. */
  function Retried(cfg: Config, s: State, i: nat): State
    requires i < |s.sleepers|
  {
    var rest := s.(sleepers := s.sleepers[..i] + s.sleepers[i + 1..]);
    if |s.queue| < cfg.capacity then rest.(queue := s.queue + [s.sleepers[i]])
    else rest.(dropped := s.dropped + [s.sleepers[i]])
  }

  // ---- what draining the queue comes to ----

  /** How one try of an item ends. */
  datatype Fate = Succeeded | Unread | Retrying | Spent

  function FateOf(cfg: Config, local: map<Key, Bytes>, trip: Trip, it: Item): (fate: Fate)
    ensures fate.Unread? <==> !trip.readOk || it.key !in local
    ensures fate.Succeeded? <==> trip.readOk && it.key in local && trip.applied && trip.putOk
    ensures fate.Retrying? ==> it.attempts + 1 < cfg.maxRetry
    ensures fate.Spent? ==> it.attempts + 1 >= cfg.maxRetry
  {
    if !trip.readOk || it.key !in local then Unread
    else if trip.Ok() then Succeeded
    else if it.attempts + 1 < cfg.maxRetry then Retrying
    else Spent
  }

  /** The items whose try ends in one way, in their order. */
  function Fated(cfg: Config, local: map<Key, Bytes>, world: Item -> Trip, items: seq<Item>, fate: Fate): seq<Item> {
    if items == [] then []
    else
      (if FateOf(cfg, local, world(items[0]), items[0]) == fate then [items[0]] else [])
      + Fated(cfg, local, world, items[1..], fate)
  }

  /** The items with one more attempt each. */
  function Again(items: seq<Item>): seq<Item> {
    if items == [] then [] else [items[0].(attempts := items[0].attempts + 1)] + Again(items[1..])
  }

  /** Each item goes where its fate says, and nowhere else. */
  lemma {:induction false} FatedExactly(
      cfg: Config, local: map<Key, Bytes>, world: Item -> Trip, items: seq<Item>, fate: Fate, it: Item)
    ensures multiset(Fated(cfg, local, world, items, fate))[it]
         == if FateOf(cfg, local, world(it), it) == fate then multiset(items)[it] else 0
  {
    if items != [] {
      FatedExactly(cfg, local, world, items[1..], fate, it);
      assert items == [items[0]] + items[1..];
    }
  }

  /** S3 takes the local content of a key for some of these items. */
  ghost predicate Applies(local: map<Key, Bytes>, world: Item -> Trip, items: seq<Item>, k: Key) {
    k in local && exists it :: it in items && it.key == k && world(it).readOk && world(it).applied
  }

  /** S3 has the local content of these keys, and of no other anything new. */
  ghost predicate S3Takes(local: map<Key, Bytes>, world: Item -> Trip, items: seq<Item>,
      s3: map<Key, Bytes>, s3': map<Key, Bytes>)
  {
    && (forall k :: Applies(local, world, items, k) ==> k in s3' && s3'[k] == local[k])
    && (forall k :: !Applies(local, world, items, k) ==> Lookup(s3', k) == Lookup(s3, k))
  }

  /**
    How draining the queue takes s to s': each item, in its order, is uploaded, missing, asleep with one more
    attempt or, when that was its last, exhausted; and S3 has the local content of exactly the keys it took.
   */
  ghost predicate DrainsTo(cfg: Config, s: State, s': State, world: Item -> Trip) {
    && s'.queue == [] && s'.local == s.local
    && s'.uploaded == s.uploaded + Fated(cfg, s.local, world, s.queue, Succeeded)
    && s'.missing == s.missing + Fated(cfg, s.local, world, s.queue, Unread)
    && s'.sleepers == s.sleepers + Again(Fated(cfg, s.local, world, s.queue, Retrying))
    && s'.exhausted == s.exhausted + Again(Fated(cfg, s.local, world, s.queue, Spent))
    && S3Takes(s.local, world, s.queue, s.s3, s'.s3)
  }

  lemma {:induction false} DrainedDrains(cfg: Config, s: State, world: Item -> Trip)
    ensures DrainsTo(cfg, s, Drained(cfg, s, world), world)
    ensures
      var s' := Drained(cfg, s, world);
      s' == s.(queue := [], s3 := s'.s3, uploaded := s'.uploaded, missing := s'.missing, sleepers := s'.sleepers,
               exhausted := s'.exhausted)
    decreases |s.queue|
  {
    if s.queue != [] {
      var mid := Tried(cfg, s.(queue := s.queue[1..]), s.queue[0], world(s.queue[0]));
      DrainedDrains(cfg, mid, world);
      DrainsFirst(cfg, s, world, mid, Drained(cfg, s, world));
    }
  }

  /** One try puts the item where its fate says. */
  lemma TriedAs(cfg: Config, s: State, it: Item, trip: Trip)
    ensures
      var s', fate := Tried(cfg, s, it, trip), FateOf(cfg, s.local, trip, it);
      && s'.local == s.local && s'.queue == s.queue
      && s'.uploaded == s.uploaded + (if fate.Succeeded? then [it] else [])
      && s'.missing == s.missing + (if fate.Unread? then [it] else [])
      && s'.sleepers == s.sleepers + Again(if fate.Retrying? then [it] else [])
      && s'.exhausted == s.exhausted + Again(if fate.Spent? then [it] else [])
      && s'.s3 == if trip.readOk && it.key in s.local && trip.applied then s.s3[it.key := s.local[it.key]] else s.s3
  {
    assert [it][1..] == [];
  }

  lemma FatedFirst(cfg: Config, local: map<Key, Bytes>, world: Item -> Trip, items: seq<Item>, fate: Fate)
    requires items != []
    ensures
      var first := if FateOf(cfg, local, world(items[0]), items[0]) == fate then [items[0]] else [];
      var rest := Fated(cfg, local, world, items[1..], fate);
      Fated(cfg, local, world, items, fate) == first + rest && Again(first + rest) == Again(first) + Again(rest)
  {
    var rest := Fated(cfg, local, world, items[1..], fate);
    assert [] + rest == rest;
    AgainFirst(items[0], rest);
  }

  lemma AgainFirst(it: Item, rest: seq<Item>)
    ensures Again([it] + rest) == Again([it]) + Again(rest) && Again([]) + Again(rest) == Again(rest)
  {
    assert ([it] + rest)[1..] == rest && [it][1..] == [];
  }

  lemma Appended(ledger: seq<Item>, first: seq<Item>, rest: seq<Item>)
    ensures ledger + first + rest == ledger + (first + rest)
  {
  }

  lemma DrainsFirst(cfg: Config, s: State, world: Item -> Trip, mid: State, s': State)
    requires s.queue != [] && mid == Tried(cfg, s.(queue := s.queue[1..]), s.queue[0], world(s.queue[0]))
    requires DrainsTo(cfg, mid, s', world)
    ensures DrainsTo(cfg, s, s', world)
  {
    var it, rest := s.queue[0], s.queue[1..];
    TriedAs(cfg, s.(queue := rest), it, world(it));
    S3First(s.local, world, s.queue, s.s3, mid.s3, s'.s3);
    LedgerFirst(cfg, s, world, Succeeded);
    LedgerFirst(cfg, s, world, Unread);
    LedgerFirst(cfg, s, world, Retrying);
    LedgerFirst(cfg, s, world, Spent);
  }

  /** The ledgers after the first item and the rest are those after all. */
  lemma LedgerFirst(cfg: Config, s: State, world: Item -> Trip, fate: Fate)
    requires s.queue != []
    ensures
      var it, rest := s.queue[0], Fated(cfg, s.local, world, s.queue[1..], fate);
      var first := if FateOf(cfg, s.local, world(it), it) == fate then [it] else [];
      var all := Fated(cfg, s.local, world, s.queue, fate);
      && s.uploaded + first + rest == s.uploaded + all && s.missing + first + rest == s.missing + all
      && s.sleepers + Again(first) + Again(rest) == s.sleepers + Again(all)
      && s.exhausted + Again(first) + Again(rest) == s.exhausted + Again(all)
  {
    var it, rest := s.queue[0], Fated(cfg, s.local, world, s.queue[1..], fate);
    var first := if FateOf(cfg, s.local, world(it), it) == fate then [it] else [];
    FatedFirst(cfg, s.local, world, s.queue, fate);
    Appended(s.uploaded, first, rest);
    Appended(s.missing, first, rest);
    Appended(s.sleepers, Again(first), Again(rest));
    Appended(s.exhausted, Again(first), Again(rest));
  }

  lemma S3First(local: map<Key, Bytes>, world: Item -> Trip, items: seq<Item>,
      s3: map<Key, Bytes>, mid: map<Key, Bytes>, s3': map<Key, Bytes>)
    requires items != [] && S3Takes(local, world, items[1..], mid, s3')
    requires
      var it := items[0];
      mid == if world(it).readOk && it.key in local && world(it).applied then s3[it.key := local[it.key]] else s3
    ensures S3Takes(local, world, items, s3, s3')
  {
    forall k ensures Applies(local, world, items, k) ==> k in s3' && s3'[k] == local[k]
      ensures !Applies(local, world, items, k) ==> Lookup(s3', k) == Lookup(s3, k)
    {
      AppliesFirst(local, world, items, k);
      assert Lookup(s3', k) == if Applies(local, world, items[1..], k) then Some(local[k]) else Lookup(mid, k);
    }
  }

  lemma AppliesFirst(local: map<Key, Bytes>, world: Item -> Trip, items: seq<Item>, k: Key)
    requires items != []
    ensures
      var it := items[0];
      Applies(local, world, items, k) <==>
        (k in local && it.key == k && world(it).readOk && world(it).applied) || Applies(local, world, items[1..], k)
  {
    assert items == [items[0]] + items[1..];
  }

  // ---- the object ----

  class AsyncUploader {
    const cfg: Config
    var local: map<Key, Bytes>
    var s3: map<Key, Bytes>
    var queue: seq<Item>
    var running: bool
    var closed: bool
    var sleepers: seq<Item>
    var accepted: nat
    ghost var uploaded: seq<Item>
    ghost var missing: seq<Item>
    ghost var exhausted: seq<Item>
    ghost var dropped: seq<Item>
    ghost var acked: set<Key>

    ghost predicate Valid()
      reads this
    {
      cfg.Valid() && |queue| <= cfg.capacity && !(running && closed)
    }

    /** The machine state of this uploader with one idle worker and no client at work. */
    ghost function Abs(): State
      reads this
    {
      var phase := if closed then Closed else if running then Running else Stopping;
      State(local, s3, queue, [Idle], sleepers, map[0 := Away], phase,
            accepted, uploaded, missing, exhausted, dropped, acked, {})
    }

    constructor (queueSize: int, maxRetry: int, local: map<Key, Bytes>, s3: map<Key, Bytes>)
      ensures Valid() && cfg == Configure(queueSize, maxRetry, 1)
      ensures cfg.capacity == (if queueSize > 0 then queueSize else 1000)
      ensures cfg.maxRetry == (if maxRetry > 0 then maxRetry else 3)
      ensures Abs() == Init(cfg, local, s3).(phase := Stopping, clients := map[0 := Away])
      ensures queue == [] && !running && !closed && this.local == local && this.s3 == s3
    {
      cfg := Configure(queueSize, maxRetry, 1);
      this.local, this.s3, queue, running, closed, sleepers := local, s3, [], false, false, [];
      accepted, uploaded, missing, exhausted, dropped, acked := 0, [], [], [], [], {};
    }

    method Start()
      requires Valid() && !closed
      modifies this`running
      ensures Valid() && running && Abs() == old(Abs()).(phase := Running)
    {
      if running { return; }
      running := true;
    }

    /** True exactly when the uploader runs and the queue has room; a refused item leaves no trace. */
    method Enqueue(key: Key) returns (ok: bool)
      requires Valid()
      modifies this`queue, this`accepted, this`acked
      ensures Valid() && Abs() == Enqueued(cfg, old(Abs()), key)
      ensures ok <==> old(running) && |old(queue)| < cfg.capacity
      ensures ok ==> queue == old(queue) + [Item(old(accepted), key, 0)] && accepted == old(accepted) + 1
      ensures !ok ==> queue == old(queue) && accepted == old(accepted) && acked == old(acked)
    {
      if !running { return false; }
      if |queue| >= cfg.capacity { return false; }
      queue := queue + [Item(accepted, key, 0)];
      accepted, acked := accepted + 1, acked + {key};
      ok := true;
    }

    /**
      An item whose local entry cannot be read is missing. Otherwise S3 may take the entry's content; the item is
      uploaded when S3 says so too, and if not it sleeps or, after its last try, is exhausted.
     */
    method Upload(it: Item, trip: Trip)
      requires Valid()
      modifies this`s3, this`sleepers, this`uploaded, this`missing, this`exhausted
      ensures Valid() && Abs() == Tried(cfg, old(Abs()), it, trip)
      ensures
        var read := trip.readOk && it.key in local;
        var again := Item(it.id, it.key, it.attempts + 1);
        && missing == (if read then old(missing) else old(missing) + [it])
        && s3 == (if read && trip.applied then old(s3)[it.key := local[it.key]] else old(s3))
        && uploaded == (if read && trip.applied && trip.putOk then old(uploaded) + [it] else old(uploaded))
        && (read && !(trip.applied && trip.putOk) && it.attempts + 1 < cfg.maxRetry ==>
              sleepers == old(sleepers) + [again] && exhausted == old(exhausted))
        && (read && !(trip.applied && trip.putOk) && it.attempts + 1 >= cfg.maxRetry ==>
              sleepers == old(sleepers) && exhausted == old(exhausted) + [again])
        && (!read || (trip.applied && trip.putOk) ==> sleepers == old(sleepers) && exhausted == old(exhausted))
    {
      if !trip.readOk || it.key !in local {
        missing := missing + [it];
        return;
      }
      if trip.applied { s3 := s3[it.key := local[it.key]]; }
      if !trip.Ok() {
        var again := it.(attempts := it.attempts + 1);
        if again.attempts < cfg.maxRetry { sleepers := sleepers + [again]; } else { exhausted := exhausted + [again]; }
        return;
      }
      uploaded := uploaded + [it];
    }

    /** The loop over the queue. */
    method Worker(world: Item -> Trip)
      requires Valid()
      modifies this`queue, this`s3, this`sleepers, this`uploaded, this`missing, this`exhausted
      ensures Valid() && queue == [] && Abs() == Drained(cfg, old(Abs()), world)
      ensures DrainsTo(cfg, old(Abs()), Abs(), world)
    {
      ghost var goal := Drained(cfg, Abs(), world);
      DrainedDrains(cfg, Abs(), world);
      while queue != []
        invariant Valid() && Drained(cfg, Abs(), world) == goal
        decreases |queue|
      {
        var it := queue[0];
        queue := queue[1..];
        Upload(it, world(it));
      }
    }

    /** The end of a retry's sleep, while the queue is open: the item is queued again, or dropped when that is full. */
    method Retry(i: nat)
      requires Valid() && i < |sleepers| && !closed
      modifies this`queue, this`sleepers, this`dropped
      ensures Valid() && Abs() == Retried(cfg, old(Abs()), i)
      ensures sleepers == old(sleepers)[..i] + old(sleepers)[i + 1..]
      ensures |old(queue)| < cfg.capacity ==> queue == old(queue) + [old(sleepers)[i]] && dropped == old(dropped)
      ensures |old(queue)| >= cfg.capacity ==> queue == old(queue) && dropped == old(dropped) + [old(sleepers)[i]]
    {
      var it := sleepers[i];
      sleepers := sleepers[..i] + sleepers[i + 1..];
      if |queue| < cfg.capacity { queue := queue + [it]; } else { dropped := dropped + [it]; }
    }

    method Stop(world: Item -> Trip)
      requires Valid()
      modifies this
      ensures Valid() && !running
      ensures Abs() == if old(running) then Drained(cfg, old(Abs()).(phase := Closed), world) else old(Abs())
      ensures old(running) ==> closed && queue == [] && DrainsTo(cfg, old(Abs()), Abs(), world)
    {
      if !running { return; }
      running := false;
      closed := true;
      Worker(world);
    }
  }

  // ---- they are runs of the machine ----

  lemma {:induction false} ExecJoin(cfg: Config, s: State, a: seq<Label>, mid: State, b: seq<Label>)
    requires Exec(cfg, s, a) == Some(mid)
    ensures Exec(cfg, s, a + b) == Exec(cfg, mid, b)
    decreases |b|
  {
    if b == [] {
      assert a + b == a;
    } else {
      ExecJoin(cfg, s, a, mid, b[..|b| - 1]);
      assert (a + b)[..|a + b| - 1] == a + b[..|b| - 1];
    }
  }

  lemma ExecOne(cfg: Config, s: State, l: Label)
    ensures Exec(cfg, s, [l]) == Next(cfg, s, l)
  {
    assert [l][..0] == [];
  }

  lemma ExecOn(cfg: Config, s: State, a: seq<Label>, mid: State, l: Label, s': State)
    requires Exec(cfg, s, a) == Some(mid) && Next(cfg, mid, l) == Some(s')
    ensures Exec(cfg, s, a + [l]) == Some(s')
  {
    ExecOne(cfg, mid, l);
    ExecJoin(cfg, s, a, mid, [l]);
  }

  /** One worker with nothing in hand. */
  predicate OneIdle(s: State) { s.workers == [Idle] && !s.phase.Crashed? }

  /** The steps of the worker for the first item of the queue. */
  function TripRun(s: State, it: Item, trip: Trip): seq<Label> {
    if trip.readOk && it.key in s.local then
      [Take(0), Read(0, true)] + (if trip.applied then [Apply(0)] else []) + [Finish(0, trip.Ok())]
    else [Take(0), Read(0, trip.readOk)]
  }

  /** The steps of the worker's loop. */
  function DrainRun(cfg: Config, s: State, world: Item -> Trip): seq<Label>
    decreases |s.queue|
  {
    if s.queue == [] then []
    else
      var it := s.queue[0];
      TripRun(s, it, world(it)) + DrainRun(cfg, Tried(cfg, s.(queue := s.queue[1..]), it, world(it)), world)
  }

  /** The worker with the item in hand, and with its content opened. */
  function Held(s: State, it: Item): State
    requires s.queue != []
  {
    s.(queue := s.queue[1..], workers := [Holding(it)])
  }

  lemma TakeStep(cfg: Config, s: State)
    requires OneIdle(s) && s.queue != []
    ensures Exec(cfg, s, [Take(0)]) == Some(Held(s, s.queue[0]))
  {
    ExecOne(cfg, s, Take(0));
    assert [Idle][0 := Holding(s.queue[0])] == [Holding(s.queue[0])];
  }

  lemma ReadStep(cfg: Config, s: State, readOk: bool)
    requires OneIdle(s) && s.queue != []
    ensures
      var it := s.queue[0];
      Next(cfg, Held(s, it), Read(0, readOk)) == Some(
        if readOk && it.key in s.local
        then s.(queue := s.queue[1..], workers := [Uploading(it, s.local[it.key], false)])
        else s.(queue := s.queue[1..], missing := s.missing + [it]))
  {
    var it := s.queue[0];
    assert [Holding(it)][0 := Idle] == [Idle];
    if it.key in s.local {
      assert [Holding(it)][0 := Uploading(it, s.local[it.key], false)] == [Uploading(it, s.local[it.key], false)];
    }
  }

  lemma ApplyStep(cfg: Config, s: State, it: Item, body: Bytes)
    requires OneIdle(s)
    ensures Next(cfg, s.(workers := [Uploading(it, body, false)]), Apply(0))
         == Some(s.(s3 := s.s3[it.key := body], workers := [Uploading(it, body, true)]))
  {
    assert [Uploading(it, body, false)][0 := Uploading(it, body, true)] == [Uploading(it, body, true)];
  }

  lemma FinishStep(cfg: Config, s: State, it: Item, trip: Trip)
    requires OneIdle(s) && trip.readOk && it.key in s.local
    ensures
      var body := s.local[it.key];
      var s3 := if trip.applied then s.s3[it.key := body] else s.s3;
      Next(cfg, s.(s3 := s3, workers := [Uploading(it, body, trip.applied)]), Finish(0, trip.Ok()))
        == Some(Tried(cfg, s, it, trip))
  {
    assert [Uploading(it, s.local[it.key], trip.applied)][0 := Idle] == [Idle];
  }

  /** A worker with a taken item that S3 has answered. */
  lemma AnswerRuns(cfg: Config, s0: State, a: seq<Label>, s: State, it: Item, trip: Trip)
    requires OneIdle(s) && trip.readOk && it.key in s.local
    requires Exec(cfg, s0, a) == Some(s.(workers := [Uploading(it, s.local[it.key], false)]))
    ensures Exec(cfg, s0, a + (if trip.applied then [Apply(0)] else []) + [Finish(0, trip.Ok())])
         == Some(Tried(cfg, s, it, trip))
  {
    var body := s.local[it.key];
    var run, at := a, s.(workers := [Uploading(it, body, false)]);
    if trip.applied {
      ApplyStep(cfg, s, it, body);
      run, at := a + [Apply(0)], s.(s3 := s.s3[it.key := body], workers := [Uploading(it, body, true)]);
      ExecOn(cfg, s0, a, s.(workers := [Uploading(it, body, false)]), Apply(0), at);
    } else {
      assert a + [] == a;
    }
    FinishStep(cfg, s, it, trip);
    ExecOn(cfg, s0, run, at, Finish(0, trip.Ok()), Tried(cfg, s, it, trip));
  }

  /** Taking the first item of the queue and trying it is a run of the machine. */
  lemma TriedRuns(cfg: Config, s: State, trip: Trip)
    requires OneIdle(s) && s.queue != []
    ensures Exec(cfg, s, TripRun(s, s.queue[0], trip)) == Some(Tried(cfg, s.(queue := s.queue[1..]), s.queue[0], trip))
  {
    var it, rest := s.queue[0], s.(queue := s.queue[1..]);
    TakeStep(cfg, s);
    ReadStep(cfg, s, trip.readOk);
    assert [Take(0)] + [Read(0, trip.readOk)] == [Take(0), Read(0, trip.readOk)];
    if trip.readOk && it.key in s.local {
      var read := rest.(workers := [Uploading(it, s.local[it.key], false)]);
      ExecOn(cfg, s, [Take(0)], Held(s, it), Read(0, true), read);
      AnswerRuns(cfg, s, [Take(0), Read(0, true)], rest, it, trip);
    } else {
      ExecOn(cfg, s, [Take(0)], Held(s, it), Read(0, trip.readOk), Tried(cfg, rest, it, trip));
    }
  }

  /** The worker's loop is a run of the machine, and leaves its queue empty. */
  lemma {:induction false} DrainedRuns(cfg: Config, s: State, world: Item -> Trip)
    requires OneIdle(s)
    ensures Exec(cfg, s, DrainRun(cfg, s, world)) == Some(Drained(cfg, s, world))
    ensures Drained(cfg, s, world).queue == [] && Drained(cfg, s, world).phase == s.phase
    ensures OneIdle(Drained(cfg, s, world))
    decreases |s.queue|
  {
    if s.queue != [] {
      var it := s.queue[0];
      var mid := Tried(cfg, s.(queue := s.queue[1..]), it, world(it));
      TriedRuns(cfg, s, world(it));
      DrainedRuns(cfg, mid, world);
      ExecJoin(cfg, s, TripRun(s, it, world(it)), mid, DrainRun(cfg, mid, world));
    }
  }

  /** Stop is a run of the machine that ends with Stop returned. */
  lemma StopRuns(cfg: Config, s: State, world: Item -> Trip)
    requires OneIdle(s) && s.phase.Running?
    ensures
      var closed := s.(phase := Closed);
      Exec(cfg, s, [ClearRunning, Close] + DrainRun(cfg, closed, world) + [Exit(0)] + [StopReturns])
        == Some(Drained(cfg, closed, world).(workers := [Exited], phase := Stopped))
  {
    var closed := s.(phase := Closed);
    var end := Drained(cfg, closed, world);
    CloseRuns(cfg, s);
    DrainedRuns(cfg, closed, world);
    ExecJoin(cfg, s, [ClearRunning, Close], closed, DrainRun(cfg, closed, world));
    ExitRuns(cfg, s, [ClearRunning, Close] + DrainRun(cfg, closed, world), end);
  }

  lemma CloseRuns(cfg: Config, s: State)
    requires s.phase.Running?
    ensures Exec(cfg, s, [ClearRunning, Close]) == Some(s.(phase := Closed))
  {
    ExecOne(cfg, s, ClearRunning);
    ExecOn(cfg, s, [ClearRunning], s.(phase := Stopping), Close, s.(phase := Closed));
    assert [ClearRunning] + [Close] == [ClearRunning, Close];
  }

  lemma ExitRuns(cfg: Config, s: State, a: seq<Label>, end: State)
    requires Exec(cfg, s, a) == Some(end) && OneIdle(end) && end.phase.Closed? && end.queue == []
    ensures Exec(cfg, s, a + [Exit(0)] + [StopReturns]) == Some(end.(workers := [Exited], phase := Stopped))
  {
    var exited := end.(workers := [Exited]);
    ExitStep(cfg, end);
    ReturnStep(cfg, exited);
    ExecOn(cfg, s, a, end, Exit(0), exited);
    ExecOn(cfg, s, a + [Exit(0)], exited, StopReturns, end.(workers := [Exited], phase := Stopped));
  }

  lemma ExitStep(cfg: Config, s: State)
    requires OneIdle(s) && s.phase.Closed? && s.queue == []
    ensures Next(cfg, s, Exit(0)) == Some(s.(workers := [Exited]))
  {
    assert [Idle][0 := Exited] == [Exited];
  }

  lemma ReturnStep(cfg: Config, s: State)
    requires s.workers == [Exited] && s.phase.Closed?
    ensures Next(cfg, s, StopReturns) == Some(s.(phase := Stopped))
  {
  }

  /** A retry's end is a step of the machine. */
  lemma RetryRuns(cfg: Config, s: State, i: nat)
    requires QueueOpen(s) && i < |s.sleepers|
    ensures Next(cfg, s, Wake(i)) == Some(Retried(cfg, s, i))
  {
  }

  // ---- a client's Put ----

  /** Client 0's local write of b has landed. */
  function Landed(s: State, key: Key, b: Bytes): State { s.(local := s.local[key := b]) }

  /** The steps of a Put up to the end of its Enqueue. */
  function EnqueueRun(s: State, key: Key, b: Bytes): seq<Label> {
    [PutLocal(0, key, b), CheckRunning(0)] + if s.phase.Running? then [Send(0)] else []
  }

  /**
    A Put up to the end of its Enqueue is a run of the machine: with the item queued and the Put acknowledged,
    or, when the uploader does not run or the queue is full, on its way to a synchronous upload.
   */
  lemma EnqueuedRuns(cfg: Config, s: State, key: Key, b: Bytes)
    requires QueueOpen(s) && s.clients == map[0 := Away]
    ensures
      var after := Enqueued(cfg, Landed(s, key, b), key);
      Exec(cfg, s, EnqueueRun(s, key, b)) == Some(
        if s.phase.Running? && |s.queue| < cfg.capacity then after
        else after.(clients := map[0 := FallingBack(key)]))
  {
    var put := Landed(s, key, b);
    ExecOne(cfg, s, PutLocal(0, key, b));
    assert s.clients[0 := Stored(key)] == map[0 := Stored(key)];
    var next := if s.phase.Running? then Admitted(key) else FallingBack(key);
    assert map[0 := Stored(key)][0 := next] == map[0 := next];
    ExecOn(cfg, s, [PutLocal(0, key, b)], put.(clients := map[0 := Stored(key)]), CheckRunning(0),
           put.(clients := map[0 := next]));
    assert [PutLocal(0, key, b)] + [CheckRunning(0)] == [PutLocal(0, key, b), CheckRunning(0)];
    if s.phase.Running? {
      SendStep(cfg, put, key);
      ExecOn(cfg, s, [PutLocal(0, key, b), CheckRunning(0)], put.(clients := map[0 := next]), Send(0),
             if |s.queue| < cfg.capacity then Enqueued(cfg, put, key) else put.(clients := map[0 := FallingBack(key)]));
    } else {
      assert [PutLocal(0, key, b), CheckRunning(0)] + [] == [PutLocal(0, key, b), CheckRunning(0)];
    }
  }

  lemma SendStep(cfg: Config, s: State, key: Key)
    requires s.phase.Running? && s.clients == map[0 := Away]
    ensures Next(cfg, s.(clients := map[0 := Admitted(key)]), Send(0)) == Some(
      if |s.queue| < cfg.capacity then Enqueued(cfg, s, key) else s.(clients := map[0 := FallingBack(key)]))
  {
    assert map[0 := Admitted(key)][0 := Away] == s.clients;
    assert map[0 := Admitted(key)][0 := FallingBack(key)] == map[0 := FallingBack(key)];
  }
}
