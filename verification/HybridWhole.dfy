/**
  The overlapping calls and the calls one after another are the same: with nothing in between, the steps of a call take
  the tiers, the map and the caller where the operation does. And what a caller is told is what the map has.
 */
module HybridWhole {
  import opened Answers
  import opened Base
  import opened CallKinds
  import opened Hybrid
  import opened HybridCalls

  // ---- with nothing in between ----

  /** The state between calls, after one has said something. */
  function Between(t: Tiers, spec: Spec, said: Said): State { State(t, spec, map[], said) }

  lemma ExecFirst(s: State, l: Label, s': State)
    requires Next(NONE, s, l) == Some(s')
    ensures Exec(NONE, s, [l]) == Some(s')
  {
    assert [l][..0] == [];
  }

  lemma ExecOn(s: State, run: seq<Label>, mid: State, l: Label, s': State)
    requires Exec(NONE, s, run) == Some(mid) && Next(NONE, mid, l) == Some(s')
    ensures Exec(NONE, s, run + [l]) == Some(s')
  {
    assert (run + [l])[..|run|] == run;
  }

  function Evicts(k: Key, evicted: bool): seq<Label> { if evicted then [Evict(k)] else [] }

  function PutRun(k: Key, b: Bytes, f: PutFaults): seq<Label> {
    if !f.store then [Begin(0, Putting(k, b))] + [Local(0, false)]
    else
      [Begin(0, Putting(k, b))] + [Local(0, true)] + Evicts(k, f.evicted) + [Local(0, f.read)]
      + if f.read && !f.evicted then [S3(0, true, f.s3)] else []
  }

  /** The state of a lone call of client 0. */
  function At(t: Tiers, spec: Spec, said: Said, stage: Stage): State { State(t, spec, map[0 := stage], said) }

  lemma Replaced(a: Stage, b: Stage)
    ensures map[0 := a][0 := b] == map[0 := b] && map[0 := a] - {0} == map[] && map[][0 := a] == map[0 := a]
  {
  }

  lemma Stored(t: Tiers, spec: Spec, said: Said, k: Key, b: Bytes)
    ensures
      var s := Between(t, spec, said);
      Exec(NONE, s, [Begin(0, Putting(k, b))] + [Local(0, true)])
        == Some(At(t.(local := t.local[k := b]), spec, said, Written(k, b)))
  {
    var s := Between(t, spec, said);
    Replaced(Putting(k, b), Written(k, b));
    ExecFirst(s, Begin(0, Putting(k, b)), At(t, spec, said, Putting(k, b)));
    ExecOn(s, [Begin(0, Putting(k, b))], At(t, spec, said, Putting(k, b)), Local(0, true),
           At(t.(local := t.local[k := b]), spec, said, Written(k, b)));
  }

  /** An eviction, or none. */
  lemma MayEvict(s: State, run: seq<Label>, mid: State, k: Key, evicted: bool)
    requires Exec(NONE, s, run) == Some(mid)
    ensures Exec(NONE, s, run + Evicts(k, evicted)) == Some(if evicted then mid.SetLocal(k, None) else mid)
  {
    if evicted { ExecOn(s, run, mid, Evict(k), mid.SetLocal(k, None)); } else { assert run + [] == run; }
  }

  /** The end of a Put, when something goes wrong before S3 is asked; */
  lemma UnreadEnds(t: Tiers, spec: Spec, said: Said, k: Key, b: Bytes, f: PutFaults)
    requires f.store && (!f.read || f.evicted)
    ensures
      var (t', r) := Put(t, k, b, f);
      var stored := At(t.(local := t.local[k := b]), spec, said, Written(k, b));
      Next(NONE, if f.evicted then stored.SetLocal(k, None) else stored, Local(0, f.read))
        == Some(Between(t', StepSpec(spec, t, DoPut(k, b, f)), PutSaid(r)))
  {
    Replaced(Written(k, b), Written(k, b));
    assert t.local[k := b] - {k} == t.local - {k};
  }

  /** ... and otherwise. */
  lemma SentEnds(t: Tiers, spec: Spec, said: Said, k: Key, b: Bytes, f: PutFaults)
    requires f.store && f.read && !f.evicted
    ensures
      var (t', r) := Put(t, k, b, f);
      var local := t.(local := t.local[k := b]);
      && Next(NONE, At(local, spec, said, Written(k, b)), Local(0, true))
           == Some(At(local, spec, said, Sending(k, b, b)))
      && Next(NONE, At(local, spec, said, Sending(k, b, b)), S3(0, true, f.s3))
           == Some(Between(t', StepSpec(spec, t, DoPut(k, b, f)), PutSaid(r)))
  {
    Replaced(Written(k, b), Sending(k, b, b));
    Replaced(Sending(k, b, b), Sending(k, b, b));
  }

  lemma UnstoredEnds(t: Tiers, spec: Spec, said: Said, k: Key, b: Bytes, f: PutFaults)
    requires !f.store
    ensures Exec(NONE, Between(t, spec, said), PutRun(k, b, f)) == Some(Between(t, spec, PutSaid(StoreFailed)))
  {
    var s, putting := Between(t, spec, said), At(t, spec, said, Putting(k, b));
    Replaced(Putting(k, b), Putting(k, b));
    ExecFirst(s, Begin(0, Putting(k, b)), putting);
    ExecOn(s, [Begin(0, Putting(k, b))], putting, Local(0, false), Between(t, spec, PutSaid(StoreFailed)));
  }

  lemma PutIsWhole(t: Tiers, spec: Spec, said: Said, k: Key, b: Bytes, f: PutFaults)
    ensures
      var (t', r) := Put(t, k, b, f);
      Exec(NONE, Between(t, spec, said), PutRun(k, b, f))
        == Some(Between(t', StepSpec(spec, t, DoPut(k, b, f)), PutSaid(r)))
  {
    if !f.store {
      UnstoredEnds(t, spec, said, k, b, f);
    } else {
      var s := Between(t, spec, said);
      var (t', r) := Put(t, k, b, f);
      var end := Between(t', StepSpec(spec, t, DoPut(k, b, f)), PutSaid(r));
      var run := [Begin(0, Putting(k, b))] + [Local(0, true)];
      var stored := At(t.(local := t.local[k := b]), spec, said, Written(k, b));
      Stored(t, spec, said, k, b);
      MayEvict(s, run, stored, k, f.evicted);
      if f.read && !f.evicted {
        SentEnds(t, spec, said, k, b, f);
        ExecOn(s, run + Evicts(k, f.evicted), stored, Local(0, true), At(stored.tiers, spec, said, Sending(k, b, b)));
        ExecOn(s, run + Evicts(k, f.evicted) + [Local(0, true)], At(stored.tiers, spec, said, Sending(k, b, b)),
               S3(0, true, f.s3), end);
      } else {
        UnreadEnds(t, spec, said, k, b, f);
        ExecOn(s, run + Evicts(k, f.evicted), if f.evicted then stored.SetLocal(k, None) else stored,
               Local(0, f.read), end);
        assert run + Evicts(k, f.evicted) + [Local(0, f.read)] + [] == run + Evicts(k, f.evicted) + [Local(0, f.read)];
      }
    }
  }

  function GetRun(t: Tiers, k: Key, f: GetFaults): seq<Label> {
    var first := [Begin(0, Getting(k))] + [Local(0, f.read)];
    if !f.read || k in t.local then first
    else
      var asked := first + [S3(0, f.s3, Accepted)];
      if !f.s3 || k !in t.s3 then asked
      else if !f.backfill then asked + [Local(0, false)]
      else asked + [Local(0, true)] + Evicts(k, f.evicted) + [Local(0, f.reread)]
  }

  lemma Missed(t: Tiers, spec: Spec, said: Said, k: Key)
    requires k !in t.local
    ensures
      var s := Between(t, spec, said);
      Exec(NONE, s, [Begin(0, Getting(k))] + [Local(0, true)]) == Some(At(t, spec, said, Fetching(k)))
  {
    var s := Between(t, spec, said);
    Replaced(Getting(k), Fetching(k));
    ExecFirst(s, Begin(0, Getting(k)), At(t, spec, said, Getting(k)));
    ExecOn(s, [Begin(0, Getting(k))], At(t, spec, said, Getting(k)), Local(0, true), At(t, spec, said, Fetching(k)));
  }

  lemma Backfilled(t: Tiers, spec: Spec, said: Said, k: Key, f: GetFaults)
    requires f.read && k !in t.local && f.s3 && k in t.s3
    ensures
      var (t', r) := Get(t, k, f);
      Exec(NONE, Between(t, spec, said), GetRun(t, k, f)) == Some(Between(t', spec, GetSaid(r)))
  {
    var s, b := Between(t, spec, said), t.s3[k];
    var (t', r) := Get(t, k, f);
    var asked := [Begin(0, Getting(k))] + [Local(0, true)] + [S3(0, true, Accepted)];
    var filling := At(t, spec, said, Filling(k, b));
    Missed(t, spec, said, k);
    Replaced(Fetching(k), Filling(k, b));
    Replaced(Filling(k, b), Rereading(k));
    Replaced(Rereading(k), Rereading(k));
    var fetching := At(t, spec, said, Fetching(k));
    ExecOn(s, [Begin(0, Getting(k))] + [Local(0, true)], fetching, S3(0, true, Accepted), filling);
    if !f.backfill {
      ExecOn(s, asked, filling, Local(0, false), Between(t, spec, GetSaid(BackfillFailed)));
    } else {
      var filled := At(t.(local := t.local[k := b]), spec, said, Rereading(k));
      ExecOn(s, asked, filling, Local(0, true), filled);
      MayEvict(s, asked + [Local(0, true)], filled, k, f.evicted);
      var mid := if f.evicted then filled.SetLocal(k, None) else filled;
      var evicted := asked + [Local(0, true)] + Evicts(k, f.evicted);
      ExecOn(s, evicted, mid, Local(0, f.reread), Between(t', spec, GetSaid(r)));
    }
  }

  lemma GetIsWhole(t: Tiers, spec: Spec, said: Said, k: Key, f: GetFaults)
    ensures
      var (t', r) := Get(t, k, f);
      Exec(NONE, Between(t, spec, said), GetRun(t, k, f)) == Some(Between(t', spec, GetSaid(r)))
  {
    var s, r := Between(t, spec, said), Get(t, k, f).1;
    if f.read && k !in t.local && f.s3 && k in t.s3 {
      Backfilled(t, spec, said, k, f);
    } else if f.read && k !in t.local {
      Missed(t, spec, said, k);
      Replaced(Fetching(k), Fetching(k));
      ExecOn(s, [Begin(0, Getting(k))] + [Local(0, true)], At(t, spec, said, Fetching(k)), S3(0, f.s3, Accepted),
             Between(t, spec, GetSaid(r)));
    } else {
      Replaced(Getting(k), Getting(k));
      ExecFirst(s, Begin(0, Getting(k)), At(t, spec, said, Getting(k)));
      ExecOn(s, [Begin(0, Getting(k))], At(t, spec, said, Getting(k)), Local(0, f.read), Between(t, spec, GetSaid(r)));
    }
  }

  function HeadRun(t: Tiers, k: Key, localOk: bool, s3Ok: bool): seq<Label> {
    [Begin(0, Heading(k))] + [Local(0, localOk)] + if localOk && k !in t.local then [S3(0, s3Ok, Accepted)] else []
  }

  lemma HeadIsWhole(t: Tiers, spec: Spec, said: Said, k: Key, localOk: bool, s3Ok: bool)
    ensures Exec(NONE, Between(t, spec, said), HeadRun(t, k, localOk, s3Ok))
         == Some(Between(t, spec, HeadSaid(Head(t, k, localOk, s3Ok))))
  {
    var s, end := Between(t, spec, said), Between(t, spec, HeadSaid(Head(t, k, localOk, s3Ok)));
    var first := [Begin(0, Heading(k))] + [Local(0, localOk)];
    Replaced(Heading(k), HeadingS3(k));
    Replaced(HeadingS3(k), HeadingS3(k));
    ExecFirst(s, Begin(0, Heading(k)), At(t, spec, said, Heading(k)));
    if localOk && k !in t.local {
      ExecOn(s, [Begin(0, Heading(k))], At(t, spec, said, Heading(k)), Local(0, true), At(t, spec, said, HeadingS3(k)));
      ExecOn(s, first, At(t, spec, said, HeadingS3(k)), S3(0, s3Ok, Accepted), end);
    } else {
      ExecOn(s, [Begin(0, Heading(k))], At(t, spec, said, Heading(k)), Local(0, localOk), end);
      assert first + [] == first;
    }
  }

  lemma DeleteIsWhole(t: Tiers, spec: Spec, said: Said, k: Key, f: DeleteFaults)
    ensures
      var (t', r) := Delete(t, k, f);
      Exec(NONE, Between(t, spec, said), [Begin(0, Deleting(k))] + [Local(0, f.local)] + [S3(0, true, f.s3)])
        == Some(Between(t', StepSpec(spec, t, DoDelete(k, f)), DeleteSaid(r)))
  {
    var s, mid := Between(t, spec, said), t.(local := if f.local then t.local - {k} else t.local);
    var (t', r) := Delete(t, k, f);
    Replaced(Deleting(k), DeletingS3(k, f.local));
    Replaced(DeletingS3(k, f.local), Deleting(k));
    ExecFirst(s, Begin(0, Deleting(k)), At(t, spec, said, Deleting(k)));
    ExecOn(s, [Begin(0, Deleting(k))], At(t, spec, said, Deleting(k)), Local(0, f.local),
           At(mid, spec, said, DeletingS3(k, f.local)));
    ExecOn(s, [Begin(0, Deleting(k))] + [Local(0, f.local)], At(mid, spec, said, DeletingS3(k, f.local)),
           S3(0, true, f.s3), Between(t', StepSpec(spec, t, DoDelete(k, f)), DeleteSaid(r)));
  }

  // ---- what callers are told ----

  /** The call of client c returns by the step. */
  ghost predicate Returns(s: State, l: Label, s': State, c: nat) {
    Next(NONE, s, l) == Some(s') && (l.Local? || l.S3?) && l.c == c && c in s.calls && c !in s'.calls
  }

  /**
    In every run without the overlaps that do harm, a Get that hits is told what the map has, or for a key in doubt a
    content that is left open; and one that misses, unless its backfill was evicted, that the map has nothing.
   */
  lemma GetIsToldTheMap(t: Tiers, spec: Spec, run: seq<Label>, s: State, c: nat, l: Label, s': State)
    requires Refines(t, spec) && Exec(NONE, Start(t, spec), run) == Some(s) && Returns(s, l, s', c)
    requires s.calls[c].Kind() == AGet
    ensures s'.said.GetSaid?
    ensures
      var k, r := s.calls[c].key, s'.said.get;
      && (r.Hit? ==> Some(r.body) in s.spec.Possible(k))
      && (r.Hit? && !s.spec.InDoubt(k) ==> Lookup(s.spec.entries, k) == Some(r.body))
      && (r.Miss? && !s.calls[c].Rereading? ==> None in s.spec.Possible(k))
      && (r.Miss? && !s.calls[c].Rereading? && !s.spec.InDoubt(k) ==> k !in s.spec.entries)
  {
    StartIsQuiet(t, spec);
    RunKeeps(Start(t, spec), run, s);
    KeyIsQuiet(s, c);
  }

  /** A Head is told so too, as long as no Put of its key is between its local write and its upload. */
  lemma HeadIsToldTheMap(t: Tiers, spec: Spec, run: seq<Label>, s: State, c: nat, l: Label, s': State)
    requires Refines(t, spec) && Exec(NONE, Start(t, spec), run) == Some(s) && Returns(s, l, s', c)
    requires s.calls[c].Kind() == AHead && Whole(s, s.calls[c].key)
    ensures s'.said.HeadSaid?
    ensures
      var k, r := s.calls[c].key, s'.said.head;
      && (r.Size? ==> exists b :: Some(b) in s.spec.Possible(k) && r.n == |b|)
      && (r.NoEntry? ==> None in s.spec.Possible(k))
  {
    StartIsQuiet(t, spec);
    RunKeeps(Start(t, spec), run, s);
  }
}
