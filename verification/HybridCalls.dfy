/**
  Overlapping calls of the two-tier backend with synchronous upload. Each access of a tier is one step, which
  other calls' steps, and evictions, can come between. Which kinds of calls of one key may overlap is a parameter.
 */
module HybridCalls {
  import opened Answers
  import opened Base
  import opened CallKinds
  import opened Hybrid

  datatype Stage =
    | Heading(key: Key)
    | HeadingS3(key: Key)                                 // Head: missed locally
    | Putting(key: Key, body: Bytes)
    | Written(key: Key, body: Bytes)                      // Put: the local write is done
    | Sending(key: Key, body: Bytes, read: Bytes)         // Put: the entry is read back
    | Getting(key: Key)
    | Fetching(key: Key)                                  // Get: missed locally
    | Filling(key: Key, found: Bytes)                     // Get: read from S3
    | Rereading(key: Key)                                 // Get: backfilled
    | Deleting(key: Key)
    | DeletingS3(key: Key, localOk: bool)                 // Delete: the local tier has answered
  {
    function Kind(): Kind {
      if Heading? || HeadingS3? then AHead
      else if Putting? || Written? || Sending? then APut
      else if Deleting? || DeletingS3? then ADelete
      else AGet
    }
  }

  /** What the latest call to return has said. */
  datatype Said = Nothing | PutSaid(put: PutReply) | GetSaid(get: GetReply) | HeadSaid(head: HeadReply)
    | DeleteSaid(delete: DeleteReply)

  datatype State = State(tiers: Tiers, spec: Spec, calls: map<nat, Stage>, said: Said) {
    predicate Free(k: Key) { forall c | c in calls :: calls[c].key != k }
    function End(c: nat, said: Said): State { this.(calls := calls - {c}, said := said) }
    function Go(c: nat, stage: Stage): State { this.(calls := calls[c := stage]) }
    function SetLocal(k: Key, o: Option<Bytes>): State {
      this.(tiers := tiers.(local := if o.Some? then tiers.local[k := o.value] else tiers.local - {k}))
    }
    function SetS3(k: Key, o: Option<Bytes>): State {
      this.(tiers := tiers.(s3 := if o.Some? then tiers.s3[k := o.value] else tiers.s3 - {k}))
    }
    function Tell(spec: Spec): State { this.(spec := spec) }
  }

  /** `ok` is whether the tier answers; `answer` how S3 answers a mutation. */
  datatype Label =
    | Begin(c: nat, call: Stage)
    | Local(c: nat, ok: bool)
    | S3(c: nat, ok: bool, answer: Answer)
    | Evict(key: Key)

  /** A step at the local tier: the write, read-back, read, backfill, reread or removal that comes next. */
  function LocalStep(s: State, c: nat, ok: bool): Option<State>
    requires c in s.calls
  {
    var stage, local := s.calls[c], s.tiers.local;
    match stage
    case Heading(k) =>
      Some(if !ok then s.End(c, HeadSaid(HeadFailed))
           else if k in local then s.End(c, HeadSaid(Size(|local[k]|)))
           else s.Go(c, HeadingS3(k)))
    case Putting(k, b) =>
      Some(if ok then s.SetLocal(k, Some(b)).Go(c, Written(k, b)) else s.End(c, PutSaid(StoreFailed)))
    case Written(k, b) =>
      if ok && k in local then Some(s.Go(c, Sending(k, b, local[k])))
      else Some(s.Tell(s.spec.Failed(k, Some(b))).End(c, PutSaid(if ok then Disappeared else RereadFailed)))
    case Getting(k) =>
      Some(if !ok then s.End(c, GetSaid(LocalFailed))
           else if k in local then s.End(c, GetSaid(Hit(local[k])))
           else s.Go(c, Fetching(k)))
    case Filling(k, b) =>
      Some(if ok then s.SetLocal(k, Some(b)).Go(c, Rereading(k)) else s.End(c, GetSaid(BackfillFailed)))
    case Rereading(k) =>
      Some(s.End(c, GetSaid(if !ok then LocalFailed else if k in local then Hit(local[k]) else Miss)))
    case Deleting(k) => Some((if ok then s.SetLocal(k, None) else s).Go(c, DeletingS3(k, ok)))
    case _ => None
  }

  function S3Step(s: State, c: nat, ok: bool, answer: Answer): Option<State>
    requires c in s.calls
  {
    var s3 := s.tiers.s3;
    match s.calls[c]
    case HeadingS3(k) =>
      Some(s.End(c, HeadSaid(if !ok then HeadFailed else if k in s3 then Size(|s3[k]|) else NoEntry)))
    case Sending(k, b, read) =>
      var s' := if answer == Rejected(false) then s else s.SetS3(k, Some(read));
      Some(if answer.Accepted? then s'.Tell(s.spec.Done(k, Some(b))).End(c, PutSaid(PutDone))
           else s'.Tell(s.spec.Failed(k, Some(b))).End(c, PutSaid(UploadFailed)))
    case Fetching(k) =>
      Some(if !ok then s.End(c, GetSaid(S3Failed))
           else if k in s3 then s.Go(c, Filling(k, s3[k]))
           else s.End(c, GetSaid(Miss)))
    case DeletingS3(k, localOk) =>
      var s' := if answer == Rejected(false) then s else s.SetS3(k, None);
      var r := if !localOk then LocalDeleteFailed else if answer.Accepted? then Deleted else S3DeleteFailed;
      Some(s'.Tell(if r.Deleted? then s.spec.Done(k, None) else s.spec.Failed(k, None)).End(c, DeleteSaid(r)))
    case _ => None
  }

  /** A call of any kind begins, next to calls of its key that it may overlap. */
  predicate MayBegin(may: Overlaps, s: State, c: nat, call: Stage) {
    && c !in s.calls && (call.Heading? || call.Putting? || call.Getting? || call.Deleting?)
    && forall d | d in s.calls :: s.calls[d].key == call.key ==> may.Meet(call.Kind(), s.calls[d].Kind())
  }

  function Next(may: Overlaps, s: State, l: Label): Option<State> {
    match l
    case Begin(c, call) => if MayBegin(may, s, c, call) then Some(s.Go(c, call)) else None
    case Local(c, ok) => if c in s.calls then LocalStep(s, c, ok) else None
    case S3(c, ok, answer) => if c in s.calls then S3Step(s, c, ok, answer) else None
    case Evict(k) => Some(s.SetLocal(k, None))
  }

  function Exec(may: Overlaps, s: State, run: seq<Label>): Option<State>
    decreases |run|
  {
    if run == [] then Some(s)
    else
      var mid := Exec(may, s, run[..|run| - 1]);
      if mid.None? then None else Next(may, mid.value, run[|run| - 1])
  }

  // ---- without these overlaps ----

  /** A key is as between the calls of a sequential run. */
  ghost predicate Quiet(s: State, k: Key) {
    (!s.spec.InDoubt(k) ==> Agrees(s.tiers, s.spec.entries, k)) && Plausible(s.tiers, s.spec, k)
  }

  /** A Put whose local write is done has still to reach S3. */
  predicate Halfway(stage: Stage) { stage.Written? || stage.Sending? }

  /** What S3 holds is what the map leaves open; the local tier holds b or nothing. */
  ghost predicate HalfPut(s: State, k: Key, b: Bytes) {
    && Lookup(s.tiers.s3, k) in s.spec.Possible(k)
    && (k in s.tiers.local ==> s.tiers.local[k] == b)
  }

  ghost predicate StageOk(s: State, stage: Stage) {
    var k := stage.key;
    match stage
    case Written(_, b) => HalfPut(s, k, b)
    case Sending(_, b, read) => HalfPut(s, k, b) && read == b
    case Filling(_, b) => Lookup(s.tiers.s3, k) == Some(b)
    case DeletingS3(_, localOk) => localOk ==> k !in s.tiers.local
    case _ => true
  }

  /** No Put of k is halfway. */
  ghost predicate Whole(s: State, k: Key) { forall c :: c in s.calls && s.calls[c].key == k ==> !Halfway(s.calls[c]) }

  ghost predicate Inv(s: State) {
    && (forall k :: Whole(s, k) ==> Quiet(s, k))
    && (forall c :: c in s.calls ==> StageOk(s, s.calls[c]))
    && (forall c, d :: c in s.calls && d in s.calls && c != d && s.calls[c].key == s.calls[d].key
          ==> NONE.Meet(s.calls[c].Kind(), s.calls[d].Kind()))
  }

  /** Nothing that concerns k differs. */
  ghost predicate SameAt(s: State, s': State, k: Key) {
    && Lookup(s'.tiers.local, k) == Lookup(s.tiers.local, k) && Lookup(s'.tiers.s3, k) == Lookup(s.tiers.s3, k)
    && Lookup(s'.spec.entries, k) == Lookup(s.spec.entries, k) && Lookup(s'.spec.tried, k) == Lookup(s.spec.tried, k)
  }

  lemma SameQuiet(s: State, s': State, k: Key)
    requires SameAt(s, s', k) && Quiet(s, k)
    ensures Quiet(s', k)
  {
    SamePossible(s, s', k);
  }

  lemma SamePossible(s: State, s': State, k: Key)
    requires SameAt(s, s', k)
    ensures s'.spec.Possible(k) == s.spec.Possible(k) && (s'.spec.InDoubt(k) <==> s.spec.InDoubt(k))
    ensures k in s'.tiers.local <==> k in s.tiers.local
    ensures k in s.tiers.local ==> s'.tiers.local[k] == s.tiers.local[k]
  {
    assert k in s'.spec.tried <==> Lookup(s'.spec.tried, k).Some?;
    assert k in s.spec.tried <==> Lookup(s.spec.tried, k).Some?;
  }

  lemma SameStage(s: State, s': State, stage: Stage)
    requires SameAt(s, s', stage.key) && StageOk(s, stage)
    ensures StageOk(s', stage)
  {
    SamePossible(s, s', stage.key);
  }

  /** What a call's step does: its own stage is in order, and its key unless it is now a Put halfway. */
  ghost predicate OwnStep(s: State, c: nat, s': State)
    requires c in s.calls
  {
    var k := s.calls[c].key;
    && s'.calls - {c} == s.calls - {c}
    && (forall j :: j != k ==> SameAt(s, s', j))
    && (c in s'.calls ==> s'.calls[c].key == k && StageOk(s', s'.calls[c]) && s'.calls[c].Kind() == s.calls[c].Kind())
    && ((c in s'.calls && Halfway(s'.calls[c])) || Quiet(s', k))
  }

  lemma LocalOwn(s: State, c: nat, ok: bool, s': State)
    requires c in s.calls && StageOk(s, s.calls[c]) && LocalStep(s, c, ok) == Some(s')
    requires Halfway(s.calls[c]) || Quiet(s, s.calls[c].key)
    ensures OwnStep(s, c, s')
  {
    var k := s.calls[c].key;
    if s.calls[c].Written? && !(ok && k in s.tiers.local) {
      PutFails(s, s.spec.Failed(k, Some(s.calls[c].body)), k, s.calls[c].body);
    }
  }

  /** A Put that fails after its local write leaves its key to what it was or what it tried. */
  lemma PutFails(s: State, spec: Spec, k: Key, b: Bytes)
    requires spec == s.spec.Failed(k, Some(b))
    requires Lookup(s.tiers.s3, k) in s.spec.Possible(k) || Lookup(s.tiers.s3, k) == Some(b)
    requires k in s.tiers.local ==> s.tiers.local[k] == b
    ensures Quiet(s.Tell(spec), k)
  {
    assert Some(b) in spec.Possible(k) && s.spec.Possible(k) <= spec.Possible(k);
  }

  lemma S3Own(s: State, c: nat, ok: bool, answer: Answer, s': State)
    requires c in s.calls && StageOk(s, s.calls[c]) && S3Step(s, c, ok, answer) == Some(s')
    requires Halfway(s.calls[c]) || Quiet(s, s.calls[c].key)
    ensures OwnStep(s, c, s')
  {
    match s.calls[c]
    case Sending(k, b, read) => SendOwn(s, c, k, b, answer, s');
    case DeletingS3(k, localOk) => DeleteOwn(s, c, k, localOk, answer, s');
    case _ =>
  }

  lemma SendOwn(s: State, c: nat, k: Key, b: Bytes, answer: Answer, s': State)
    requires c in s.calls && s.calls[c] == Sending(k, b, b) && HalfPut(s, k, b)
    requires S3Step(s, c, true, answer) == Some(s')
    ensures s'.calls == s.calls - {c} && Quiet(s', k) && forall j :: j != k ==> SameAt(s, s', j)
  {
    if !answer.Accepted? {
      var sent := if answer == Rejected(false) then s else s.SetS3(k, Some(b));
      PutFails(sent, s.spec.Failed(k, Some(b)), k, b);
    }
  }

  lemma DeleteOwn(s: State, c: nat, k: Key, localOk: bool, answer: Answer, s': State)
    requires c in s.calls && s.calls[c] == DeletingS3(k, localOk) && StageOk(s, s.calls[c]) && Quiet(s, k)
    requires S3Step(s, c, true, answer) == Some(s')
    ensures s'.calls == s.calls - {c} && Quiet(s', k) && forall j :: j != k ==> SameAt(s, s', j)
  {
    if !(localOk && answer.Accepted?) {
      var spec := s.spec.Failed(k, None);
      assert None in spec.Possible(k) && s.spec.Possible(k) <= spec.Possible(k);
    }
  }

  /** Calls that may overlap without harm leave each other's stages in order. */
  lemma LocalSpares(s: State, c: nat, ok: bool, s': State, d: nat)
    requires Inv(s) && c in s.calls && LocalStep(s, c, ok) == Some(s')
    requires d in s.calls && d != c && s.calls[d].key == s.calls[c].key
    ensures StageOk(s', s.calls[d])
  {
    assert NONE.Meet(s.calls[c].Kind(), s.calls[d].Kind()) && StageOk(s, s.calls[d]);
  }

  lemma S3Spares(s: State, c: nat, ok: bool, answer: Answer, s': State, d: nat)
    requires Inv(s) && c in s.calls && S3Step(s, c, ok, answer) == Some(s')
    requires d in s.calls && d != c && s.calls[d].key == s.calls[c].key
    ensures StageOk(s', s.calls[d])
  {
    assert NONE.Meet(s.calls[c].Kind(), s.calls[d].Kind()) && StageOk(s, s.calls[d]);
  }

  lemma OthersStay(s: State, c: nat, s': State)
    requires s'.calls - {c} == s.calls - {c}
    ensures forall d :: d != c ==> (d in s'.calls <==> d in s.calls)
    ensures forall d :: d != c && d in s.calls ==> s'.calls[d] == s.calls[d]
  {
    forall d | d != c ensures d in s'.calls <==> d in s.calls
      ensures d in s.calls ==> s'.calls[d] == s.calls[d]
    {
      assert d in s.calls <==> d in s.calls - {c};
      assert d in s'.calls <==> d in s'.calls - {c};
      if d in s.calls { assert (s'.calls - {c})[d] == s'.calls[d] && (s.calls - {c})[d] == s.calls[d]; }
    }
  }

  lemma OwnStepKeeps(s: State, c: nat, s': State)
    requires Inv(s) && c in s.calls && OwnStep(s, c, s')
    requires forall d :: d in s.calls && d != c && s.calls[d].key == s.calls[c].key ==> StageOk(s', s.calls[d])
    ensures Inv(s')
  {
    var k := s.calls[c].key;
    OthersStay(s, c, s');
    forall d | d in s'.calls ensures StageOk(s', s'.calls[d]) {
      if d != c && s.calls[d].key != k { SameStage(s, s', s.calls[d]); }
    }
    forall j | Whole(s', j) ensures Quiet(s', j) {
      if j != k {
        forall d | d in s.calls && s.calls[d].key == j ensures !Halfway(s.calls[d]) { assert d in s'.calls; }
        assert Whole(s, j);
        SameQuiet(s, s', j);
      }
    }
    forall d, e | d in s'.calls && e in s'.calls && d != e && s'.calls[d].key == s'.calls[e].key
      ensures NONE.Meet(s'.calls[d].Kind(), s'.calls[e].Kind())
    {
      assert d in s.calls && e in s.calls && NONE.Meet(s.calls[d].Kind(), s.calls[e].Kind());
    }
  }

  /** The key of a call that is not halfway is quiet: a Put of it that is halfway has no company but Heads. */
  lemma KeyIsQuiet(s: State, c: nat)
    requires Inv(s) && c in s.calls && !s.calls[c].Kind().AHead?
    ensures Halfway(s.calls[c]) || Quiet(s, s.calls[c].key)
  {
    if !Halfway(s.calls[c]) {
      forall d | d in s.calls && s.calls[d].key == s.calls[c].key ensures !Halfway(s.calls[d]) {
        if d != c { assert NONE.Meet(s.calls[c].Kind(), s.calls[d].Kind()); }
      }
      assert Whole(s, s.calls[c].key);
    }
  }

  /** A Head changes nothing. */
  lemma HeadKeeps(s: State, c: nat, s': State)
    requires Inv(s) && c in s.calls && s.calls[c].Kind().AHead? && s'.tiers == s.tiers && s'.spec == s.spec
    requires s'.calls == s.calls - {c} || s'.calls == s.calls[c := HeadingS3(s.calls[c].key)]
    ensures Inv(s')
  {
    forall d | d in s'.calls ensures StageOk(s', s'.calls[d]) { assert StageOk(s, s.calls[d]); }
    forall j | Whole(s', j) ensures Quiet(s', j) {
      forall d | d in s.calls && s.calls[d].key == j ensures !Halfway(s.calls[d]) {
        if d != c { assert d in s'.calls && s'.calls[d] == s.calls[d]; }
      }
      assert Whole(s, j);
    }
  }

  lemma BeginKeeps(s: State, c: nat, call: Stage)
    requires Inv(s) && MayBegin(NONE, s, c, call)
    ensures Inv(s.Go(c, call))
  {
    var s' := s.Go(c, call);
    forall d | d in s.calls ensures StageOk(s', s.calls[d]) { SameStage(s, s', s.calls[d]); }
    forall j | Whole(s', j) ensures Quiet(s', j) {
      forall d | d in s.calls && s.calls[d].key == j ensures !Halfway(s.calls[d]) {
        assert s'.calls[d] == s.calls[d];
      }
      assert Whole(s, j);
      SameQuiet(s, s', j);
    }
    forall d, e | d in s'.calls && e in s'.calls && d != e && s'.calls[d].key == s'.calls[e].key
      ensures NONE.Meet(s'.calls[d].Kind(), s'.calls[e].Kind())
    {
      if d != c && e != c { assert NONE.Meet(s.calls[d].Kind(), s.calls[e].Kind()); }
    }
  }

  lemma EvictKeeps(s: State, k: Key)
    requires Inv(s)
    ensures Inv(s.SetLocal(k, None))
  {
    var s' := s.SetLocal(k, None);
    forall c | c in s.calls ensures StageOk(s', s.calls[c]) {
      if s.calls[c].key != k { SameStage(s, s', s.calls[c]); }
    }
    forall j | Whole(s', j) ensures Quiet(s', j) {
      assert Whole(s, j);
      if j != k { SameQuiet(s, s', j); }
    }
  }

  lemma LocalKeeps(s: State, c: nat, ok: bool, s': State)
    requires Inv(s) && c in s.calls && LocalStep(s, c, ok) == Some(s')
    ensures Inv(s')
  {
    if s.calls[c].Kind().AHead? {
      HeadKeeps(s, c, s');
    } else {
      KeyIsQuiet(s, c);
      LocalOwn(s, c, ok, s');
      forall d | d in s.calls && d != c && s.calls[d].key == s.calls[c].key ensures StageOk(s', s.calls[d]) {
        LocalSpares(s, c, ok, s', d);
      }
      OwnStepKeeps(s, c, s');
    }
  }

  lemma S3Keeps(s: State, c: nat, ok: bool, answer: Answer, s': State)
    requires Inv(s) && c in s.calls && S3Step(s, c, ok, answer) == Some(s')
    ensures Inv(s')
  {
    if s.calls[c].Kind().AHead? {
      HeadKeeps(s, c, s');
    } else {
      KeyIsQuiet(s, c);
      S3Own(s, c, ok, answer, s');
      forall d | d in s.calls && d != c && s.calls[d].key == s.calls[c].key ensures StageOk(s', s.calls[d]) {
        S3Spares(s, c, ok, answer, s', d);
      }
      OwnStepKeeps(s, c, s');
    }
  }

  lemma StepKeeps(s: State, l: Label, s': State)
    requires Inv(s) && Next(NONE, s, l) == Some(s')
    ensures Inv(s')
  {
    match l
    case Begin(c, call) => BeginKeeps(s, c, call);
    case Local(c, ok) => LocalKeeps(s, c, ok, s');
    case S3(c, ok, answer) => S3Keeps(s, c, ok, answer, s');
    case Evict(k) => EvictKeeps(s, k);
  }

  lemma {:induction false} RunKeeps(s: State, run: seq<Label>, s': State)
    requires Inv(s) && Exec(NONE, s, run) == Some(s')
    ensures Inv(s')
    decreases |run|
  {
    if run != [] {
      var mid := Exec(NONE, s, run[..|run| - 1]).value;
      RunKeeps(s, run[..|run| - 1], mid);
      StepKeeps(mid, run[|run| - 1], s');
    }
  }

  // ---- runs in which two calls overlap ----

  function Start(t: Tiers, spec: Spec): State { State(t, spec, map[], Nothing) }

  /** Both tiers and the map have one entry, and the local tier has not. */
  function Cold(k: Key, b: Bytes): State { Start(Tiers(map[], map[k := b]), Spec(map[k := b], map[])) }

  ghost predicate Reached(may: Overlaps, init: State, s: State) { exists run :: Exec(may, init, run) == Some(s) }

  lemma Step(may: Overlaps, init: State, s: State, l: Label, s': State)
    requires Reached(may, init, s) && Next(may, s, l) == Some(s')
    ensures Reached(may, init, s')
  {
    var run :| Exec(may, init, run) == Some(s);
    assert (run + [l])[..|run|] == run;
    assert Exec(may, init, run + [l]) == Some(s');
  }

  /** A Put of b has read its local write back and is about to send it, */
  lemma PutReads(may: Overlaps, init: State, s: State, c: nat, k: Key, b: Bytes) returns (s': State)
    requires Reached(may, init, s) && MayBegin(may, s, c, Putting(k, b))
    ensures Reached(may, init, s') && s' == s.SetLocal(k, Some(b)).Go(c, Sending(k, b, b))
  {
    var begun, written := s.Go(c, Putting(k, b)), s.SetLocal(k, Some(b)).Go(c, Written(k, b));
    Step(may, init, s, Begin(c, Putting(k, b)), begun);
    assert begun.calls[c := Written(k, b)] == written.calls;
    Step(may, init, begun, Local(c, true), written);
    s' := s.SetLocal(k, Some(b)).Go(c, Sending(k, b, b));
    assert written.calls[c := Sending(k, b, b)] == s'.calls;
    Step(may, init, written, Local(c, true), s');
  }

  /** ... and returns nil. */
  lemma PutReturns(may: Overlaps, init: State, s: State, c: nat, k: Key, b: Bytes) returns (s': State)
    requires Reached(may, init, s) && c in s.calls && s.calls[c] == Sending(k, b, b)
    ensures Reached(may, init, s') && s' == s.SetS3(k, Some(b)).Tell(s.spec.Done(k, Some(b))).End(c, PutSaid(PutDone))
  {
    s' := s.SetS3(k, Some(b)).Tell(s.spec.Done(k, Some(b))).End(c, PutSaid(PutDone));
    Step(may, init, s, S3(c, true, Accepted), s');
  }

  /** A Delete has removed the local entry, */
  lemma DeleteRemoves(may: Overlaps, init: State, s: State, c: nat, k: Key) returns (s': State)
    requires Reached(may, init, s) && MayBegin(may, s, c, Deleting(k))
    ensures Reached(may, init, s') && s' == s.SetLocal(k, None).Go(c, DeletingS3(k, true))
  {
    var begun := s.Go(c, Deleting(k));
    Step(may, init, s, Begin(c, Deleting(k)), begun);
    s' := s.SetLocal(k, None).Go(c, DeletingS3(k, true));
    assert begun.calls[c := DeletingS3(k, true)] == s'.calls;
    Step(may, init, begun, Local(c, true), s');
  }

  /** ... and the object, and returns nil. */
  lemma DeleteReturns(may: Overlaps, init: State, s: State, c: nat, k: Key) returns (s': State)
    requires Reached(may, init, s) && c in s.calls && s.calls[c] == DeletingS3(k, true)
    ensures Reached(may, init, s') && s' == s.SetS3(k, None).Tell(s.spec.Done(k, None)).End(c, DeleteSaid(Deleted))
  {
    s' := s.SetS3(k, None).Tell(s.spec.Done(k, None)).End(c, DeleteSaid(Deleted));
    Step(may, init, s, S3(c, true, Accepted), s');
  }

  /** A Get has missed locally and read S3, */
  lemma GetFetches(may: Overlaps, k: Key, b: Bytes)
    ensures Reached(may, Cold(k, b), Cold(k, b).Go(0, Filling(k, b)))
  {
    var s := Cold(k, b);
    assert Exec(may, s, []) == Some(s);
    Step(may, s, s, Begin(0, Getting(k)), s.Go(0, Getting(k)));
    assert s.Go(0, Getting(k)).Go(0, Fetching(k)) == s.Go(0, Fetching(k));
    Step(may, s, s.Go(0, Getting(k)), Local(0, true), s.Go(0, Fetching(k)));
    assert s.Go(0, Fetching(k)).Go(0, Filling(k, b)) == s.Go(0, Filling(k, b));
    Step(may, s, s.Go(0, Fetching(k)), S3(0, true, Accepted), s.Go(0, Filling(k, b)));
  }

  /** ... and, whatever has happened since, backfills what it read and returns. */
  lemma GetFills(may: Overlaps, init: State, s: State, k: Key, b: Bytes) returns (s': State)
    requires Reached(may, init, s) && s.calls == map[0 := Filling(k, b)]
    ensures Reached(may, init, s')
    ensures s' == State(s.tiers.(local := s.tiers.local[k := b]), s.spec, map[], GetSaid(Hit(b)))
  {
    var filled := s.SetLocal(k, Some(b)).Go(0, Rereading(k));
    Step(may, init, s, Local(0, true), filled);
    s' := State(s.tiers.(local := s.tiers.local[k := b]), s.spec, map[], GetSaid(Hit(b)));
    assert filled.calls - {0} == map[];
    Step(may, init, filled, Local(0, true), s');
  }

  /** Some run of these calls, without any failure, ends with no call of k under way and the tiers at odds. */
  ghost predicate Unquiet(may: Overlaps) {
    exists k, b, s :: Reached(may, Cold(k, b), s) && s.calls == map[] && !Quiet(s, k)
  }

  /** A Put between the halves of a Get is undone by its backfill. */
  lemma GetPutIsSeen(may: Overlaps, k: Key, older: Bytes, newer: Bytes)
    requires may.getPut && older != newer
    ensures Unquiet(may)
  {
    var init, s := Cold(k, older), Cold(k, older).Go(0, Filling(k, older));
    GetFetches(may, k, older);
    s := PutReads(may, init, s, 1, k, newer);
    s := PutReturns(may, init, s, 1, k, newer);
    assert s.calls == map[0 := Filling(k, older)];
    s := GetFills(may, init, s, k, older);
    assert s.spec.entries[k] == newer && s.tiers.local[k] == older && !s.spec.InDoubt(k);
  }

  /** A Delete between the halves of a Get is undone by its backfill. */
  lemma GetDeleteIsSeen(may: Overlaps, k: Key, older: Bytes)
    requires may.getDelete
    ensures Unquiet(may)
  {
    var init, s := Cold(k, older), Cold(k, older).Go(0, Filling(k, older));
    GetFetches(may, k, older);
    s := DeleteRemoves(may, init, s, 1, k);
    s := DeleteReturns(may, init, s, 1, k);
    assert s.calls == map[0 := Filling(k, older)];
    s := GetFills(may, init, s, k, older);
    assert k !in s.spec.entries && s.tiers.local[k] == older && !s.spec.InDoubt(k);
  }

  /** Of two Puts, the one that writes S3 last need not be the one that wrote the local tier last. */
  lemma PutPutIsSeen(may: Overlaps, k: Key, one: Bytes, two: Bytes)
    requires may.putPut && one != two
    ensures Unquiet(may)
  {
    var init, s := Cold(k, []), Cold(k, []);
    assert Exec(may, init, []) == Some(init);
    s := PutReads(may, init, s, 0, k, one);
    s := PutReads(may, init, s, 1, k, two);
    s := PutReturns(may, init, s, 1, k, two);
    s := PutReturns(may, init, s, 0, k, one);
    assert s.calls == map[] && s.spec.entries[k] == one && s.tiers.local[k] == two && !s.spec.InDoubt(k);
  }

  /** A Put between the halves of a Delete leaves its entry in the local tier alone. */
  lemma PutDeleteIsSeen(may: Overlaps, k: Key, b: Bytes)
    requires may.putDelete
    ensures Unquiet(may)
  {
    var init, s := Cold(k, []), Cold(k, []);
    assert Exec(may, init, []) == Some(init);
    s := DeleteRemoves(may, init, s, 0, k);
    s := PutReads(may, init, s, 1, k, b);
    s := PutReturns(may, init, s, 1, k, b);
    assert s.calls == map[0 := DeletingS3(k, true)];
    s := DeleteReturns(may, init, s, 0, k);
    assert s.calls == map[] && k !in s.spec.entries && s.tiers.local[k] == b && !s.spec.InDoubt(k);
  }

  // ---- exactly ----

  /** In every run every key with no call in progress is as between the calls of a sequential run. */
  ghost predicate AlwaysQuiet(may: Overlaps) {
    forall t, spec, run, s, k ::
      Refines(t, spec) && Exec(may, Start(t, spec), run) == Some(s) && s.Free(k) ==> Quiet(s, k)
  }

  lemma UnquietIsSeen(may: Overlaps)
    requires Unquiet(may)
    ensures !AlwaysQuiet(may)
  {
    var k, b, s :| Reached(may, Cold(k, b), s) && s.calls == map[] && !Quiet(s, k);
    var run :| Exec(may, Cold(k, b), run) == Some(s);
    assert Refines(Cold(k, b).tiers, Cold(k, b).spec) && s.Free(k);
  }

  /**
    The two tiers keep to one map in every interleaving, with any failures and evictions in between, exactly when
    no Put of a key overlaps another mutation or a Get of it, and no Delete a Get. Heads may overlap anything, Gets
    Gets, and Deletes Deletes; and calls of different keys may overlap in any way.
   */
  lemma QuietExactly(may: Overlaps)
    ensures AlwaysQuiet(may) <==> may == NONE
  {
    if may == NONE {
      forall t, spec, run, s, k | Refines(t, spec) && Exec(NONE, Start(t, spec), run) == Some(s) && s.Free(k)
        ensures Quiet(s, k)
      {
        StartIsQuiet(t, spec);
        RunKeeps(Start(t, spec), run, s);
        assert Whole(s, k);
      }
    } else {
      if may.getPut { GetPutIsSeen(may, "", [0], [1]); }
      else if may.getDelete { GetDeleteIsSeen(may, "", [0]); }
      else if may.putPut { PutPutIsSeen(may, "", [0], [1]); }
      else { PutDeleteIsSeen(may, "", [0]); }
      UnquietIsSeen(may);
    }
  }

  lemma StartIsQuiet(t: Tiers, spec: Spec)
    requires Refines(t, spec)
    ensures Inv(Start(t, spec))
  {
    forall k ensures Quiet(Start(t, spec), k) { assert Plausible(t, spec, k); }
  }

  /**
    Without these overlaps, what the local tier gives a Get at its first read, or after its backfill, is the one
    map's content, or for a key in doubt one that is left open; and so is what S3 gives it.
   */
  lemma GetReadsTheMap(t: Tiers, spec: Spec, run: seq<Label>, s: State, c: nat)
    requires Refines(t, spec) && Exec(NONE, Start(t, spec), run) == Some(s)
    requires c in s.calls && (s.calls[c].Getting? || s.calls[c].Rereading? || s.calls[c].Fetching?)
    ensures
      var k := s.calls[c].key;
      && s.tiers.View(k) in s.spec.Possible(k)
      && (!s.spec.InDoubt(k) ==> s.tiers.View(k) == Lookup(s.spec.entries, k) == Lookup(s.tiers.s3, k))
  {
    StartIsQuiet(t, spec);
    RunKeeps(Start(t, spec), run, s);
    KeyIsQuiet(s, c);
  }
}
