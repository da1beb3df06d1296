/**
  The two-tier backend with synchronous upload, under arbitrary failures of either tier and evictions
  at any moment, also in the middle of an operation. Calls follow one another here, so no two local writes
  overlap and each happens at one moment; HybridFiles says what becomes of those that do overlap.
 */
module Hybrid {
  import opened Answers
  import opened Base

  datatype Found = ReadError | Absent | Present(body: Bytes)

  /** One tier. */
  class Store {
    var entries: map<Key, Bytes>

    constructor (entries: map<Key, Bytes>)
      ensures this.entries == entries
    {
      this.entries := entries;
    }

    method Read(key: Key, ok: bool) returns (r: Found)
      ensures r == if !ok then ReadError else if key in entries then Present(entries[key]) else Absent
    {
      r := if !ok then ReadError else if key in entries then Present(entries[key]) else Absent;
    }

    method Write(key: Key, body: Bytes, answer: Answer) returns (ok: bool)
      modifies this
      ensures ok <==> answer.Accepted?
      ensures entries == if answer == Rejected(false) then old(entries) else old(entries)[key := body]
    {
      if answer != Rejected(false) { entries := entries[key := body]; }
      ok := answer.Accepted?;
    }

    method Remove(key: Key, answer: Answer) returns (ok: bool)
      modifies this
      ensures ok <==> answer.Accepted?
      ensures entries == if answer == Rejected(false) then old(entries) else old(entries) - {key}
    {
      if answer != Rejected(false) { entries := entries - {key}; }
      ok := answer.Accepted?;
    }
  }

  datatype Tiers = Tiers(local: map<Key, Bytes>, s3: map<Key, Bytes>) {
    /** What a read of the local tier first, then of S3, finds. */
    function View(k: Key): Option<Bytes> {
      if k in local then Some(local[k]) else Lookup(s3, k)
    }
  }

  /** `evicted` says that cleanup removes the entry just before the local tier is read (again). */
  datatype PutFaults = PutFaults(store: bool, evicted: bool, read: bool, s3: Answer)
  datatype GetFaults = GetFaults(read: bool, s3: bool, backfill: bool, evicted: bool, reread: bool)
  datatype DeleteFaults = DeleteFaults(local: bool, s3: Answer)

  datatype PutReply = PutDone | StoreFailed | RereadFailed | Disappeared | UploadFailed
  datatype GetReply = Hit(body: Bytes) | Miss | LocalFailed | S3Failed | BackfillFailed
  datatype HeadReply = Size(n: nat) | NoEntry | HeadFailed
  datatype DeleteReply = Deleted | LocalDeleteFailed | S3DeleteFailed

  // ---- what the operations compute ----

  function Put(t: Tiers, key: Key, body: Bytes, f: PutFaults): (Tiers, PutReply) {
    if !f.store then (t, StoreFailed)
    else
      var local := t.local[key := body];
      var s3 := if f.s3 == Rejected(false) then t.s3 else t.s3[key := body];
      if !f.read then (Tiers(if f.evicted then local - {key} else local, t.s3), RereadFailed)
      else if f.evicted then (Tiers(local - {key}, t.s3), Disappeared)
      else (Tiers(local, s3), if f.s3.Accepted? then PutDone else UploadFailed)
  }

  function Get(t: Tiers, key: Key, f: GetFaults): (Tiers, GetReply) {
    if !f.read then (t, LocalFailed)
    else if key in t.local then (t, Hit(t.local[key]))
    else if !f.s3 then (t, S3Failed)
    else if key !in t.s3 then (t, Miss)
    else if !f.backfill then (t, BackfillFailed)
    else
      var local := t.local[key := t.s3[key]];
      if f.evicted then (Tiers(local - {key}, t.s3), if f.reread then Miss else LocalFailed)
      else (Tiers(local, t.s3), if f.reread then Hit(t.s3[key]) else LocalFailed)
  }

  function Head(t: Tiers, key: Key, localOk: bool, s3Ok: bool): HeadReply {
    if !localOk then HeadFailed
    else if key in t.local then Size(|t.local[key]|)
    else if !s3Ok then HeadFailed
    else if key in t.s3 then Size(|t.s3[key]|) else NoEntry
  }

  /** Both tiers are always asked; a local failure takes precedence in the reply. */
  function Delete(t: Tiers, key: Key, f: DeleteFaults): (Tiers, DeleteReply) {
    (Tiers(if f.local then t.local - {key} else t.local, if f.s3 == Rejected(false) then t.s3 else t.s3 - {key}),
     if !f.local then LocalDeleteFailed else if f.s3.Accepted? then Deleted else S3DeleteFailed)
  }

  class HybridStore {
    const local: Store
    const s3: Store

    ghost predicate Valid() { local != s3 }

    ghost function Abs(): Tiers
      reads local, s3
    {
      Tiers(local.entries, s3.entries)
    }

    constructor (local: Store, s3: Store)
      requires local != s3
      ensures Valid() && this.local == local && this.s3 == s3
    {
      this.local, this.s3 := local, s3;
    }

    /** Cleanup removes the entry from the local tier. */
    method Evict(key: Key)
      requires Valid()
      modifies local
      ensures Abs() == old(Abs()).(local := old(local.entries) - {key})
      ensures local.entries == old(local.entries) - {key}
    {
      var _ := local.Remove(key, Accepted);
    }

    method PutEntry(key: Key, body: Bytes, f: PutFaults) returns (r: PutReply)
      requires Valid()
      modifies local, s3
      ensures (Abs(), r) == Put(old(Abs()), key, body, f)
      ensures !f.store ==> r.StoreFailed? && local.entries == old(local.entries) && s3.entries == old(s3.entries)
      ensures f.store ==>
        local.entries == if f.evicted then old(local.entries) - {key} else old(local.entries)[key := body]
      ensures f.store && !f.read ==> r.RereadFailed?
      ensures f.store && f.read && f.evicted ==> r.Disappeared?
      ensures f.store && f.read && !f.evicted ==> r == if f.s3.Accepted? then PutDone else UploadFailed
      ensures f.store && f.read && !f.evicted && f.s3 != Rejected(false) ==>
        s3.entries == old(s3.entries)[key := body]
      ensures f.evicted || !f.read || f.s3 == Rejected(false) ==> s3.entries == old(s3.entries)
    {
      var stored := local.Write(key, body, if f.store then Accepted else Rejected(false));
      if !stored { return StoreFailed; }
      if f.evicted { Evict(key); }
      var found := local.Read(key, f.read);
      match found
      case ReadError => r := RereadFailed;
      case Absent => r := Disappeared;
      case Present(b) =>
        var ok := s3.Write(key, b, f.s3);
        r := if ok then PutDone else UploadFailed;
    }

    method GetEntry(key: Key, f: GetFaults) returns (r: GetReply)
      requires Valid()
      modifies local
      ensures (Abs(), r) == Get(old(Abs()), key, f)
      ensures !f.read ==> r.LocalFailed?
      ensures f.read && key in old(local.entries) ==> r == Hit(old(local.entries)[key])
      ensures !f.read || key in old(local.entries) ==> local.entries == old(local.entries)
      ensures f.read && key !in old(local.entries) ==>
        && (!f.s3 ==> r.S3Failed? && local.entries == old(local.entries))
        && (f.s3 && key !in s3.entries ==> r.Miss? && local.entries == old(local.entries))
        && (f.s3 && key in s3.entries && !f.backfill ==> r.BackfillFailed? && local.entries == old(local.entries))
      ensures f.read && key !in old(local.entries) && f.s3 && key in s3.entries && f.backfill ==>
        && (!f.evicted ==> local.entries == old(local.entries)[key := s3.entries[key]])
        && (f.evicted ==> local.entries == old(local.entries))
        && r == if !f.reread then LocalFailed else if f.evicted then Miss else Hit(s3.entries[key])
    {
      var found := local.Read(key, f.read);
      if found.ReadError? { return LocalFailed; }
      if found.Present? { return Hit(found.body); }
      var remote := s3.Read(key, f.s3);
      if remote.ReadError? { return S3Failed; }
      if remote.Absent? { return Miss; }
      var stored := local.Write(key, remote.body, if f.backfill then Accepted else Rejected(false));
      if !stored { return BackfillFailed; }
      if f.evicted { Evict(key); }
      found := local.Read(key, f.reread);
      r := match found
           case ReadError => LocalFailed
           case Absent => Miss
           case Present(b) => Hit(b);
    }

    method HeadEntry(key: Key, localOk: bool, s3Ok: bool) returns (r: HeadReply)
      ensures r == Head(Abs(), key, localOk, s3Ok)
      ensures r.HeadFailed? <==> !localOk || (key !in local.entries && !s3Ok)
      ensures localOk && key in local.entries ==> r == Size(|local.entries[key]|)
      ensures localOk && key !in local.entries && s3Ok ==>
        r == if key in s3.entries then Size(|s3.entries[key]|) else NoEntry
    {
      var found := local.Read(key, localOk);
      if found.ReadError? { return HeadFailed; }
      if found.Present? { return Size(|found.body|); }
      var remote := s3.Read(key, s3Ok);
      r := match remote
           case ReadError => HeadFailed
           case Absent => NoEntry
           case Present(b) => Size(|b|);
    }

    method DeleteEntry(key: Key, f: DeleteFaults) returns (r: DeleteReply)
      requires Valid()
      modifies local, s3
      ensures (Abs(), r) == Delete(old(Abs()), key, f)
      ensures local.entries == if f.local then old(local.entries) - {key} else old(local.entries)
      ensures s3.entries == if f.s3 == Rejected(false) then old(s3.entries) else old(s3.entries) - {key}
      ensures r.Deleted? <==> f.local && f.s3.Accepted?
      ensures r.LocalDeleteFailed? <==> !f.local
    {
      var localOk := local.Remove(key, if f.local then Accepted else Rejected(false));
      var s3Ok := s3.Remove(key, f.s3);
      r := if !localOk then LocalDeleteFailed else if s3Ok then Deleted else S3DeleteFailed;
    }
  }

  // ---- runs against one map ----

  datatype Op =
    | DoPut(key: Key, body: Bytes, put: PutFaults)
    | DoGet(key: Key, get: GetFaults)
    | DoDelete(key: Key, delete: DeleteFaults)
    | DoEvict(key: Key)

  function StepTiers(t: Tiers, op: Op): Tiers {
    match op
    case DoPut(k, b, f) => Put(t, k, b, f).0
    case DoGet(k, f) => Get(t, k, f).0
    case DoDelete(k, f) => Delete(t, k, f).0
    case DoEvict(k) => t.(local := t.local - {k})
  }

  /**
    The one map that clients are told about, and, for each key whose last mutation failed after it had changed
    something, the contents that failed mutations have tried to give it since the last one that returned nil:
    a body for a Put, None for a Delete.
   */
  datatype Spec = Spec(entries: map<Key, Bytes>, tried: map<Key, set<Option<Bytes>>>) {
    predicate InDoubt(k: Key) { k in tried }

    /** The contents that the map leaves open at k: one, unless k is in doubt. */
    function Possible(k: Key): set<Option<Bytes>> {
      {Lookup(entries, k)} + (if k in tried then tried[k] else {})
    }

    function Done(k: Key, c: Option<Bytes>): Spec {
      Spec(if c.Some? then entries[k := c.value] else entries - {k}, tried - {k})
    }

    function Failed(k: Key, c: Option<Bytes>): Spec {
      this.(tried := tried[k := (if k in tried then tried[k] else {}) + {c}])
    }
  }

  function StepSpec(spec: Spec, t: Tiers, op: Op): Spec {
    match op
    case DoPut(k, b, f) =>
      var r := Put(t, k, b, f).1;
      if r.PutDone? then spec.Done(k, Some(b))
      else if r.StoreFailed? then spec
      else spec.Failed(k, Some(b))
    case DoDelete(k, f) =>
      if Delete(t, k, f).1.Deleted? then spec.Done(k, None) else spec.Failed(k, None)
    case _ => spec
  }

  function Run(t: Tiers, spec: Spec, ops: seq<Op>): (Tiers, Spec)
    decreases |ops|
  {
    if ops == [] then (t, spec)
    else
      var (t', spec') := Run(t, spec, ops[..|ops| - 1]);
      (StepTiers(t', ops[|ops| - 1]), StepSpec(spec', t', ops[|ops| - 1]))
  }

  /** S3 holds what the map says, and the local tier holds that or nothing. */
  ghost predicate Agrees(t: Tiers, entries: map<Key, Bytes>, k: Key) {
    Lookup(t.s3, k) == Lookup(entries, k) && (k in t.local ==> Lookup(entries, k) == Some(t.local[k]))
  }

  /** Each tier holds one of the contents left open; the local tier may also hold nothing. */
  ghost predicate Plausible(t: Tiers, spec: Spec, k: Key) {
    Lookup(t.s3, k) in spec.Possible(k) && (k in t.local ==> Some(t.local[k]) in spec.Possible(k))
  }

  ghost predicate Refines(t: Tiers, spec: Spec) {
    && (forall k :: !spec.InDoubt(k) ==> Agrees(t, spec.entries, k))
    && (forall k :: Plausible(t, spec, k))
  }

  lemma StepAgrees(t: Tiers, spec: Spec, op: Op, k: Key)
    requires Refines(t, spec) && !StepSpec(spec, t, op).InDoubt(k)
    ensures Agrees(StepTiers(t, op), StepSpec(spec, t, op).entries, k)
  {
    if !spec.InDoubt(k) { assert Agrees(t, spec.entries, k); }
  }

  lemma StepPlausible(t: Tiers, spec: Spec, op: Op, k: Key)
    requires Refines(t, spec)
    ensures Plausible(StepTiers(t, op), StepSpec(spec, t, op), k)
  {
    assert Plausible(t, spec, k);
    if op.DoPut? { PutPlausible(t, spec, op, k); }
  }

  lemma PutPlausible(t: Tiers, spec: Spec, op: Op, k: Key)
    requires Plausible(t, spec, k) && op.DoPut?
    ensures Plausible(StepTiers(t, op), StepSpec(spec, t, op), k)
  {
  }

  lemma StepRefines(t: Tiers, spec: Spec, op: Op)
    requires Refines(t, spec)
    ensures Refines(StepTiers(t, op), StepSpec(spec, t, op))
  {
    forall k | !StepSpec(spec, t, op).InDoubt(k)
      ensures Agrees(StepTiers(t, op), StepSpec(spec, t, op).entries, k)
    {
      StepAgrees(t, spec, op, k);
    }
    forall k ensures Plausible(StepTiers(t, op), StepSpec(spec, t, op), k) { StepPlausible(t, spec, op, k); }
  }

  /**
    Whatever fails and whatever is evicted, the tiers keep to one map on every key not in doubt, and on a key
    in doubt to its last acknowledged content or one that a failed mutation has tried since.
   */
  lemma {:induction false} RunRefines(t: Tiers, spec: Spec, ops: seq<Op>)
    requires Refines(t, spec)
    ensures Refines(Run(t, spec, ops).0, Run(t, spec, ops).1)
    decreases |ops|
  {
    if ops != [] {
      RunRefines(t, spec, ops[..|ops| - 1]);
      var (t', spec') := Run(t, spec, ops[..|ops| - 1]);
      StepRefines(t', spec', ops[|ops| - 1]);
    }
  }

  /**
    After any run, what a Get and a Head of a key not in doubt say is what the one map says; the one
    exception is a Get whose backfill is evicted before it is read back, which reports a miss.
   */
  lemma ReadsFollowMap(t0: Tiers, spec0: Spec, ops: seq<Op>, k: Key, f: GetFaults, localOk: bool, s3Ok: bool)
    requires Refines(t0, spec0)
    ensures
      var (t, spec) := Run(t0, spec0, ops);
      !spec.InDoubt(k) ==>
        && t.View(k) == Lookup(spec.entries, k)
        && (Get(t, k, f).1.Hit? ==> Lookup(spec.entries, k) == Some(Get(t, k, f).1.body))
        && (Get(t, k, f).1.Miss? ==> (k !in spec.entries <==> !(f.evicted && k !in t.local && k in t.s3)))
        && (Head(t, k, localOk, s3Ok) != HeadFailed ==>
              Head(t, k, localOk, s3Ok) == if k in spec.entries then Size(|spec.entries[k]|) else NoEntry)
  {
    RunRefines(t0, spec0, ops);
    var (t, spec) := Run(t0, spec0, ops);
    if !spec.InDoubt(k) { assert Agrees(t, spec.entries, k); }
  }

  /**
    After any run, any key, in doubt or not, reads as its last acknowledged content or as the body of a Put
    that has failed since; and as absent only if that content was absent or a Delete has failed since, or in
    the same exception.
   */
  lemma DoubtfulReads(t0: Tiers, spec0: Spec, ops: seq<Op>, k: Key, f: GetFaults, localOk: bool, s3Ok: bool)
    requires Refines(t0, spec0)
    ensures
      var (t, spec) := Run(t0, spec0, ops);
      && t.View(k) in spec.Possible(k)
      && (Get(t, k, f).1.Hit? ==> Some(Get(t, k, f).1.body) in spec.Possible(k))
      && (Get(t, k, f).1.Miss? ==> None in spec.Possible(k) || (f.evicted && k !in t.local && k in t.s3))
      && (Head(t, k, localOk, s3Ok).Size? ==>
            exists b :: Some(b) in spec.Possible(k) && Head(t, k, localOk, s3Ok).n == |b|)
      && (Head(t, k, localOk, s3Ok).NoEntry? ==> None in spec.Possible(k))
  {
    RunRefines(t0, spec0, ops);
    var (t, spec) := Run(t0, spec0, ops);
    assert Plausible(t, spec, k);
  }

  /** What is left open at a key was asked for: it was acknowledged or tried by some mutation of the run. */
  lemma {:induction false} PossibleWasAsked(t0: Tiers, spec0: Spec, ops: seq<Op>, k: Key, c: Option<Bytes>)
    requires c in Run(t0, spec0, ops).1.Possible(k)
    ensures
      || c in spec0.Possible(k)
      || exists i :: 0 <= i < |ops| && Asks(ops[i], k, c)
    decreases |ops|
  {
    if ops != [] {
      var before := ops[..|ops| - 1];
      var op, spec := ops[|ops| - 1], Run(t0, spec0, before).1;
      if c in spec.Possible(k) {
        PossibleWasAsked(t0, spec0, before, k, c);
        if i :| 0 <= i < |before| && Asks(before[i], k, c) { assert Asks(ops[i], k, c); }
      } else {
        assert Asks(op, k, c);
      }
    }
  }

  predicate Asks(op: Op, k: Key, c: Option<Bytes>) {
    (op.DoPut? && op.key == k && c == Some(op.body)) || (op.DoDelete? && op.key == k && c == None)
  }

  predicate ReadOrEvict(op: Op) { op.DoGet? || op.DoEvict? }

  /** No number of reads, backfills and evictions changes what a key not in doubt reads as. */
  lemma {:induction false} ReadsAndEvictionsChangeNothing(t: Tiers, spec: Spec, ops: seq<Op>, k: Key)
    requires Refines(t, spec) && !spec.InDoubt(k) && forall i :: 0 <= i < |ops| ==> ReadOrEvict(ops[i])
    ensures Run(t, spec, ops).1 == spec && Run(t, spec, ops).0.View(k) == t.View(k)
    decreases |ops|
  {
    assert Agrees(t, spec.entries, k);
    if ops != [] {
      ReadsAndEvictionsChangeNothing(t, spec, ops[..|ops| - 1], k);
      RunRefines(t, spec, ops);
      assert Agrees(Run(t, spec, ops).0, spec.entries, k);
    }
  }

  // ---- exactly when a mutation leaves its key in agreement ----

  /** The tiers agree on a key: an eviction of it changes nothing. */
  ghost predicate Settled(t: Tiers, k: Key) { k in t.local ==> Lookup(t.s3, k) == Some(t.local[k]) }

  /**
    A failed Put leaves its tiers in agreement on the key exactly when its entry is gone from the local
    tier again, or S3 has the same bytes, or nothing was stored and they agreed before.
   */
  lemma FailedPutSettledExactly(t: Tiers, k: Key, b: Bytes, f: PutFaults)
    requires !Put(t, k, b, f).1.PutDone?
    ensures Settled(Put(t, k, b, f).0, k) <==>
      if !f.store then Settled(t, k)
      else f.evicted || (f.read && f.s3 == Rejected(true)) || Lookup(t.s3, k) == Some(b)
  {
  }

  /** A failed upload is visible until the entry is evicted, and then the old content is back. */
  lemma FailedPutReverts(t: Tiers, k: Key, b: Bytes)
    requires Lookup(t.s3, k) != Some(b)
    ensures
      var (t', r) := Put(t, k, b, PutFaults(true, false, true, Rejected(false)));
      r == UploadFailed && t'.View(k) == Some(b) && t'.(local := t'.local - {k}).View(k) == Lookup(t.s3, k)
  {
  }

  /** A Put that succeeds before the backfill of a Get that read S3 earlier is undone in the local tier. */
  lemma PutBeforeLateBackfillIsUndone(t: Tiers, k: Key, newer: Bytes)
    requires k !in t.local && k in t.s3 && t.s3[k] != newer
    ensures
      var (mid, r) := Put(t, k, newer, PutFaults(true, false, true, Accepted));
      var end := mid.(local := mid.local[k := t.s3[k]]);
      r == PutDone && end.View(k) == Some(t.s3[k]) && !Settled(end, k)
  {
  }

  /** A Delete that returns an error for S3 can bring the entry back on the next read. */
  lemma FailedDeleteSettled(t: Tiers, k: Key, f: DeleteFaults)
    requires Settled(t, k)
    ensures
      var (t', r) := Delete(t, k, f);
      && (r.S3DeleteFailed? ==>
            Settled(t', k) && t'.View(k) == if f.s3 == Rejected(true) then None else Lookup(t.s3, k))
      && (r.LocalDeleteFailed? ==> (Settled(t', k) <==> k !in t.local || f.s3 == Rejected(false)))
  {
  }
}
