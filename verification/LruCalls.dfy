/**
  Overlapping calls through the in-memory cache. A Get looks into the cache, reads the backend and fills the cache in
  three steps; a Put fills the cache before it asks the backend, and a Delete empties it before; other calls come
  in between. Which kinds of calls of one key may overlap is a parameter.
 */
module LruCalls {
  import opened Answers
  import opened Base
  import opened CallKinds
  import L = LruCache

  datatype Stage =
    | Getting(key: Key)                                 // Get: missed in the cache
    | Fetched(key: Key, data: Bytes)                    // Get: read from the backend
    | Putting(key: Key, data: Bytes, cached: bool)      // Put: cached or not, the backend to be asked
    | Deleting(key: Key)                                // Delete: removed from the cache, the backend to be asked
  {
    function Kind(): Kind { if Putting? then APut else if Deleting? then ADelete else AGet }
  }

  datatype State = State(at: L.State, calls: map<nat, Stage>) {
    predicate Free(k: Key) { forall c | c in calls :: calls[c].key != k }
    function End(c: nat): State { this.(calls := calls - {c}) }
    function Go(c: nat, stage: Stage): State { this.(calls := calls[c := stage]) }
    function Items(items: seq<L.Item>): State { this.(at := at.(items := items)) }
    function Store(k: Key, o: Option<Bytes>): State {
      this.(at := at.(store := if o.Some? then at.store[k := o.value] else at.store - {k}))
    }
  }

  /** `ok` and `read` are whether the backend answers and its body is read to the end. */
  datatype Label =
    | Head(key: Key)
    | BeginGet(c: nat, key: Key)
    | Fetch(c: nat, ok: bool)
    | Fill(c: nat, read: bool)
    | BeginPut(c: nat, key: Key, data: Bytes, read: bool)
    | Send(c: nat, answer: Answer)
    | BeginDelete(c: nat, key: Key)
    | Remove(c: nat, answer: Answer)
    | Outside(key: Key, content: Option<Bytes>)         // another writer changes the backend

  predicate Caches(cfg: L.Config, data: Bytes) { cfg.Small(|data|) && cfg.Admits(data) }

  function Filled(cfg: L.Config, s: State, k: Key, data: Bytes): State {
    if Caches(cfg, data) then s.Items(L.Add(s.at.items, cfg.capacity, k, L.Entry(data, |data|))) else s
  }

  predicate MayBegin(may: Overlaps, s: State, c: nat, stage: Stage) {
    && c !in s.calls
    && forall d | d in s.calls :: s.calls[d].key == stage.key ==> may.Meet(stage.Kind(), s.calls[d].Kind())
  }

  function Next(cfg: L.Config, may: Overlaps, s: State, l: Label): Option<State> {
    match l
    case Head(k) => Some(s.Items(L.Touch(s.at.items, k)))
    case BeginGet(c, k) =>
      if !MayBegin(may, s, c, Getting(k)) then None
      else if L.Find(s.at.items, k).Some? then Some(s.Items(L.Touch(s.at.items, k)))
      else Some(s.Go(c, Getting(k)))
    case Fetch(c, ok) =>
      if c !in s.calls || !s.calls[c].Getting? then None
      else
        var k := s.calls[c].key;
        Some(if ok && k in s.at.store then s.Go(c, Fetched(k, s.at.store[k])) else s.End(c))
    case Fill(c, read) =>
      if c !in s.calls || !s.calls[c].Fetched? then None
      else Some((if read then Filled(cfg, s, s.calls[c].key, s.calls[c].data) else s).End(c))
    case BeginPut(c, k, data, read) =>
      if !MayBegin(may, s, c, Putting(k, data, false)) then None
      else if cfg.Small(|data|) && !read then Some(s)
      else Some(Filled(cfg, s, k, data).Go(c, Putting(k, data, Caches(cfg, data))))
    case Send(c, answer) =>
      if c !in s.calls || !s.calls[c].Putting? then None
      else Some((if answer == Rejected(false) then s else s.Store(s.calls[c].key, Some(s.calls[c].data))).End(c))
    case BeginDelete(c, k) =>
      if !MayBegin(may, s, c, Deleting(k)) then None
      else Some(s.Items(L.Without(s.at.items, k)).Go(c, Deleting(k)))
    case Remove(c, answer) =>
      if c !in s.calls || !s.calls[c].Deleting? then None
      else Some((if answer == Rejected(false) then s else s.Store(s.calls[c].key, None)).End(c))
    case Outside(k, content) => Some(s.Store(k, content))
  }

  function Exec(cfg: L.Config, may: Overlaps, s: State, run: seq<Label>): Option<State>
    decreases |run|
  {
    if run == [] then Some(s)
    else
      var mid := Exec(cfg, may, s, run[..|run| - 1]);
      if mid.None? then None else Next(cfg, may, mid.value, run[|run| - 1])
  }

  // ---- the halves make the whole ----

  /** Two steps one after the other. */
  lemma TwoSteps(cfg: L.Config, may: Overlaps, s: State, a: Label, mid: State, b: Label)
    requires Next(cfg, may, s, a) == Some(mid)
    ensures Exec(cfg, may, s, [a]) == Some(mid) && Exec(cfg, may, s, [a, b]) == Next(cfg, may, mid, b)
  {
    assert [a][..0] == [] && [a, b][..1] == [a];
  }

  lemma GetIsWhole(cfg: L.Config, may: Overlaps, s: State, c: nat, k: Key, ok: bool, read: bool)
    requires s.Free(k) && c !in s.calls
    ensures
      var op := L.Get(k, ok, read);
      var run := if L.Find(s.at.items, k).Some? then [BeginGet(c, k)]
                 else if ok && k in s.at.store then [BeginGet(c, k), Fetch(c, ok), Fill(c, read)]
                 else [BeginGet(c, k), Fetch(c, ok)];
      Exec(cfg, may, s, run) == Some(State(L.Step(cfg, s.at, op), s.calls))
  {
    var begun := Next(cfg, may, s, BeginGet(c, k)).value;
    TwoSteps(cfg, may, s, BeginGet(c, k), begun, Fetch(c, ok));
    assert s.calls[c := Getting(k)] - {c} == s.calls;
    if L.Find(s.at.items, k).None? && ok && k in s.at.store {
      var run := [BeginGet(c, k), Fetch(c, ok), Fill(c, read)];
      assert run[..2] == [BeginGet(c, k), Fetch(c, ok)];
      assert s.calls[c := Getting(k)][c := Fetched(k, s.at.store[k])] - {c} == s.calls;
    }
  }

  /** A body that cannot be read ends the Put before it is cached, or makes the backend refuse it. */
  lemma PutIsWhole(
      cfg: L.Config, may: Overlaps, s: State, c: nat, k: Key, data: Bytes, read: bool, answer: Answer)
    requires s.Free(k) && c !in s.calls
    ensures
      var run := if read then [BeginPut(c, k, data, read), Send(c, answer)]
                 else if cfg.Small(|data|) then [BeginPut(c, k, data, read)]
                 else [BeginPut(c, k, data, read), Send(c, Rejected(false))];
      Exec(cfg, may, s, run) == Some(State(L.Step(cfg, s.at, L.Put(k, data, |data|, read, answer)), s.calls))
  {
    var begun := Next(cfg, may, s, BeginPut(c, k, data, read)).value;
    TwoSteps(cfg, may, s, BeginPut(c, k, data, read), begun, Send(c, if read then answer else Rejected(false)));
    assert s.calls[c := Putting(k, data, Caches(cfg, data))] - {c} == s.calls;
  }

  lemma HeadIsWhole(cfg: L.Config, may: Overlaps, s: State, k: Key, ok: bool)
    ensures Exec(cfg, may, s, [Head(k)]) == Some(State(L.Step(cfg, s.at, L.Head(k, ok)), s.calls))
  {
    assert [Head(k)][..0] == [];
  }

  lemma DeleteIsWhole(cfg: L.Config, may: Overlaps, s: State, c: nat, k: Key, answer: Answer)
    requires s.Free(k) && c !in s.calls
    ensures Exec(cfg, may, s, [BeginDelete(c, k), Remove(c, answer)])
         == Some(State(L.Step(cfg, s.at, L.Delete(k, answer)), s.calls))
  {
    var begun := s.Items(L.Without(s.at.items, k)).Go(c, Deleting(k));
    TwoSteps(cfg, may, s, BeginDelete(c, k), begun, Remove(c, answer));
    assert begun.calls - {c} == s.calls;
  }

  // ---- which half makes a key stale ----

  /** A lookup changes no entry, and a fill or removal changes its own and may only push out another. */
  lemma ItemsAfter(cfg: L.Config, items: seq<L.Item>, k: Key, data: Bytes, j: Key)
    requires cfg.capacity >= 1 && |items| <= cfg.capacity
    ensures L.Find(L.Touch(items, k), j) == L.Find(items, j) && |L.Touch(items, k)| <= cfg.capacity
    ensures L.Find(L.Without(items, k), j) == if j == k then None else L.Find(items, j)
    ensures |L.Without(items, k)| <= cfg.capacity
    ensures
      var added := L.Add(items, cfg.capacity, k, L.Entry(data, |data|));
      && |added| <= cfg.capacity && L.Find(added, k) == Some(L.Entry(data, |data|))
      && (j != k && L.Find(added, j).Some? ==> L.Find(added, j) == L.Find(items, j))
  {
    L.TouchKeeps(items, k, j);
    L.FindWithout(items, k, j);
    L.AddFinds(items, cfg.capacity, k, L.Entry(data, |data|), j);
  }

  ghost predicate Fits(cfg: L.Config, s: State) { cfg.Valid() && |s.at.items| <= cfg.capacity }

  predicate CachedAs(s: State, k: Key, data: Bytes) {
    L.Find(s.at.items, k).Some? && L.Find(s.at.items, k).value.data == data
  }

  /** What the half of a call does to the agreement of cache and backend at its key. */
  predicate Upsets(cfg: L.Config, s: State, l: Label, k: Key) {
    match l
    case Fill(c, read) =>
      && c in s.calls && s.calls[c].Fetched? && s.calls[c].key == k
      && read && Caches(cfg, s.calls[c].data) && Lookup(s.at.store, k) != Some(s.calls[c].data)
    case BeginPut(_, j, data, read) => j == k && read && Caches(cfg, data) && Lookup(s.at.store, k) != Some(data)
    case Send(c, answer) =>
      && c in s.calls && s.calls[c].Putting? && s.calls[c].key == k
      && answer != Rejected(false) && L.Find(s.at.items, k).Some? && !CachedAs(s, k, s.calls[c].data)
    case Remove(c, answer) =>
      && c in s.calls && s.calls[c].Deleting? && s.calls[c].key == k
      && answer != Rejected(false) && L.Find(s.at.items, k).Some?
    case Outside(j, content) =>
      j == k && L.Find(s.at.items, k).Some? && !(content.Some? && CachedAs(s, k, content.value))
    case _ => false
  }

  /**
    With calls overlapping in any way, a key becomes stale by exactly these halves of calls: a fill with what the
    backend no longer has, caching what a Put has yet to store, storing or removing under a different entry
    that has been cached since, and a change from outside.
   */
  lemma BecomesStaleExactly(cfg: L.Config, may: Overlaps, s: State, l: Label, s': State, k: Key)
    requires Fits(cfg, s) && Next(cfg, may, s, l) == Some(s') && !L.Stale(s.at, k)
    ensures L.Stale(s'.at, k) <==> Upsets(cfg, s, l, k)
  {
    if l.Fill? || l.BeginPut? { FillingUpsets(cfg, may, s, l, s', k); }
    else if l.Head? || l.BeginGet? || l.BeginDelete? { LookingUpsets(cfg, may, s, l, s', k); }
  }

  lemma FillingUpsets(cfg: L.Config, may: Overlaps, s: State, l: Label, s': State, k: Key)
    requires Fits(cfg, s) && Next(cfg, may, s, l) == Some(s') && !L.Stale(s.at, k) && (l.Fill? || l.BeginPut?)
    ensures L.Stale(s'.at, k) <==> Upsets(cfg, s, l, k)
  {
    FilledAfter(cfg, s, OwnKey(s, l), OwnData(s, l), k);
  }

  /** What filling leaves of any key. */
  lemma FilledAfter(cfg: L.Config, s: State, j: Key, data: Bytes, k: Key)
    requires Fits(cfg, s)
    ensures
      var s' := Filled(cfg, s, j, data);
      && s'.calls == s.calls && s'.at.store == s.at.store && |s'.at.items| <= cfg.capacity
      && (j == k && Caches(cfg, data) ==> L.Find(s'.at.items, k) == Some(L.Entry(data, |data|)))
      && (j == k && !Caches(cfg, data) ==> L.Find(s'.at.items, k) == L.Find(s.at.items, k))
      && (j != k && L.Find(s'.at.items, k).Some? ==> L.Find(s'.at.items, k) == L.Find(s.at.items, k))
  {
    ItemsAfter(cfg, s.at.items, j, data, k);
  }

  lemma LookingUpsets(cfg: L.Config, may: Overlaps, s: State, l: Label, s': State, k: Key)
    requires Fits(cfg, s) && Next(cfg, may, s, l) == Some(s') && !L.Stale(s.at, k)
    requires l.Head? || l.BeginGet? || l.BeginDelete?
    ensures !L.Stale(s'.at, k)
  {
    ItemsAfter(cfg, s.at.items, l.key, [], k);
  }

  function OwnKey(s: State, l: Label): Key {
    if l.Fetch? || l.Fill? || l.Send? || l.Remove? then (if l.c in s.calls then s.calls[l.c].key else "") else l.key
  }

  function OwnData(s: State, l: Label): Bytes {
    match l
    case Fill(c, _) => if c in s.calls && s.calls[c].Fetched? then s.calls[c].data else []
    case BeginPut(_, _, data, _) => data
    case _ => []
  }

  // ---- without these overlaps ----

  /**
    What a run must keep to for its keys to be in good order between calls, whatever overlaps: the backend takes
    what has been cached, or it is no longer cached, or it has it; a body too large to cache does not replace
    another that is cached; and nobody changes the backend from outside to what is not cached or not being read.
   */
  predicate Keeps(s: State, l: Label) {
    match l
    case Send(c, answer) =>
      if c !in s.calls || !s.calls[c].Putting? then true
      else
        var k, data := s.calls[c].key, s.calls[c].data;
        || L.Find(s.at.items, k).None?
        || (if answer == Rejected(false) then !L.Stale(s.at, k) else CachedAs(s, k, data))
        || (s.calls[c].cached && answer != Rejected(false))
    case Outside(k, content) =>
      && (L.Find(s.at.items, k).None? || (content.Some? && CachedAs(s, k, content.value)))
      && forall c | c in s.calls :: s.calls[c].Fetched? && s.calls[c].key == k ==> content == Some(s.calls[c].data)
    case _ => true
  }

  ghost predicate KeptRun(cfg: L.Config, may: Overlaps, s: State, run: seq<Label>)
    decreases |run|
  {
    run == [] ||
    var mid := Exec(cfg, may, s, run[..|run| - 1]);
    mid.Some? && KeptRun(cfg, may, s, run[..|run| - 1]) && Keeps(mid.value, run[|run| - 1])
  }

  ghost predicate StageOk(s: State, stage: Stage) {
    var k := stage.key;
    match stage
    case Getting(_) => true
    case Fetched(_, data) => Lookup(s.at.store, k) == Some(data)
    case Putting(_, data, cached) => if cached then L.Find(s.at.items, k).None? || CachedAs(s, k, data)
                                     else !L.Stale(s.at, k)
    case Deleting(_) => L.Find(s.at.items, k).None?
  }

  /** No Put of k is under way. */
  ghost predicate Unput(s: State, k: Key) { forall c :: c in s.calls && s.calls[c].key == k ==> !s.calls[c].Putting? }

  ghost predicate Inv(cfg: L.Config, s: State) {
    && Fits(cfg, s)
    && (forall k :: Unput(s, k) ==> !L.Stale(s.at, k))
    && (forall c :: c in s.calls ==> StageOk(s, s.calls[c]))
    && (forall c, d :: c in s.calls && d in s.calls && c != d && s.calls[c].key == s.calls[d].key
          ==> NONE.Meet(s.calls[c].Kind(), s.calls[d].Kind()))
  }

  /** At k the backend is as it was, and the cache too or without an entry. */
  ghost predicate Spared(s: State, s': State, k: Key) {
    && Lookup(s'.at.store, k) == Lookup(s.at.store, k)
    && (L.Find(s'.at.items, k) == L.Find(s.at.items, k) || L.Find(s'.at.items, k).None?)
  }

  /** A step spares every key but its own. */
  lemma OthersSpared(cfg: L.Config, s: State, l: Label, s': State, k: Key)
    requires Fits(cfg, s) && Next(cfg, NONE, s, l) == Some(s') && k != OwnKey(s, l)
    ensures Fits(cfg, s') && Spared(s, s', k)
  {
    if l.Fill? || l.BeginPut? { FilledAfter(cfg, s, OwnKey(s, l), OwnData(s, l), k); }
    else if l.Head? || l.BeginGet? || l.BeginDelete? { LookingSpares(cfg, s, l, s', k); }
  }

  lemma LookingSpares(cfg: L.Config, s: State, l: Label, s': State, k: Key)
    requires l.Head? || l.BeginGet? || l.BeginDelete?
    requires Fits(cfg, s) && Next(cfg, NONE, s, l) == Some(s') && k != l.key
    ensures Fits(cfg, s') && Spared(s, s', k)
  {
    ItemsAfter(cfg, s.at.items, l.key, [], k);
  }

  /** Which call a step is of. */
  function CallOf(l: Label): Option<nat> {
    match l
    case Head(_) => None
    case Outside(_, _) => None
    case _ => Some(l.c)
  }

  /** Only the step's own call comes, goes or changes, and it keeps its key and kind. */
  lemma OwnCall(cfg: L.Config, s: State, l: Label, s': State, d: nat)
    requires Next(cfg, NONE, s, l) == Some(s')
    ensures Some(d) != CallOf(l) ==> (d in s'.calls <==> d in s.calls) && (d in s.calls ==> s'.calls[d] == s.calls[d])
    ensures Some(d) == CallOf(l) && d in s'.calls && d in s.calls ==>
      s'.calls[d].key == s.calls[d].key && s'.calls[d].Kind() == s.calls[d].Kind()
    ensures Some(d) == CallOf(l) && d in s'.calls ==> s'.calls[d].key == OwnKey(s, l)
    ensures Some(d) == CallOf(l) && d in s'.calls && d !in s.calls ==> MayBegin(NONE, s, d, s'.calls[d])
  {
  }

  /** The step's own call goes on in order, */
  lemma OwnStageOk(cfg: L.Config, s: State, l: Label, s': State, d: nat)
    requires Inv(cfg, s) && Next(cfg, NONE, s, l) == Some(s') && Some(d) == CallOf(l) && d in s'.calls
    ensures StageOk(s', s'.calls[d])
  {
    var k := OwnKey(s, l);
    ItemsAfter(cfg, s.at.items, k, OwnData(s, l), k);
    if d in s.calls { assert StageOk(s, s.calls[d]); }
    else { assert Unput(s, k) by { NoPutBeside(s, l, s', cfg); } }
  }

  lemma NoPutBeside(s: State, l: Label, s': State, cfg: L.Config)
    requires Next(cfg, NONE, s, l) == Some(s') && CallOf(l).Some?
    requires CallOf(l).value in s'.calls && CallOf(l).value !in s.calls
    ensures Unput(s, OwnKey(s, l))
  {
  }

  /** ... and so does any other of its key: beside a lookup, a change from outside or a beginning, */
  lemma OtherStageStays(cfg: L.Config, s: State, l: Label, s': State, d: nat)
    requires Inv(cfg, s) && Keeps(s, l) && Next(cfg, NONE, s, l) == Some(s')
    requires l.Head? || l.Outside? || l.BeginGet? || l.BeginPut? || l.BeginDelete?
    requires d in s.calls && s.calls[d].key == l.key
    ensures StageOk(s', s.calls[d])
  {
    ItemsAfter(cfg, s.at.items, l.key, OwnData(s, l), l.key);
    assert StageOk(s, s.calls[d]);
  }

  /** ... and beside the further step of a call that it may overlap. */
  lemma OtherStageOk(cfg: L.Config, s: State, l: Label, s': State, d: nat)
    requires Inv(cfg, s) && Keeps(s, l) && Next(cfg, NONE, s, l) == Some(s') && Some(d) != CallOf(l)
    requires d in s.calls && s.calls[d].key == OwnKey(s, l)
    ensures StageOk(s', s.calls[d])
  {
    if l.Fetch? || l.Fill? || l.Send? || l.Remove? {
      ItemsAfter(cfg, s.at.items, OwnKey(s, l), OwnData(s, l), OwnKey(s, l));
      assert NONE.Meet(s.calls[l.c].Kind(), s.calls[d].Kind());
      assert StageOk(s, s.calls[l.c]) && StageOk(s, s.calls[d]);
    } else {
      OtherStageStays(cfg, s, l, s', d);
    }
  }

  /** The step's key is in order unless a Put of it is under way. */
  lemma OwnKeyOk(cfg: L.Config, s: State, l: Label, s': State)
    requires Inv(cfg, s) && Keeps(s, l) && Next(cfg, NONE, s, l) == Some(s') && Unput(s', OwnKey(s, l))
    ensures !L.Stale(s'.at, OwnKey(s, l))
  {
    var k := OwnKey(s, l);
    ItemsAfter(cfg, s.at.items, k, OwnData(s, l), k);
    if CallOf(l).Some? && CallOf(l).value in s.calls { assert StageOk(s, s.calls[CallOf(l).value]); }
    if !l.Send? { BeforeUnput(cfg, s, l, s'); }
    if l.BeginPut? { assert l.c !in s'.calls; }
  }

  lemma BeforeUnput(cfg: L.Config, s: State, l: Label, s': State)
    requires Inv(cfg, s) && Next(cfg, NONE, s, l) == Some(s') && Unput(s', OwnKey(s, l)) && !l.Send?
    ensures Unput(s, OwnKey(s, l))
  {
    forall d | d in s.calls && s.calls[d].key == OwnKey(s, l) ensures !s.calls[d].Putting? {
      OwnCall(cfg, s, l, s', d);
    }
  }

  lemma SparedStage(s: State, s': State, stage: Stage)
    requires StageOk(s, stage) && Spared(s, s', stage.key)
    ensures StageOk(s', stage)
  {
  }

  lemma StepKeeps(cfg: L.Config, s: State, l: Label, s': State)
    requires Inv(cfg, s) && Keeps(s, l) && Next(cfg, NONE, s, l) == Some(s')
    ensures Inv(cfg, s')
  {
    FitsOn(cfg, s, l, s');
    forall d | d in s'.calls ensures StageOk(s', s'.calls[d]) { StagesKept(cfg, s, l, s', d); }
    forall k | Unput(s', k) ensures !L.Stale(s'.at, k) { KeyKept(cfg, s, l, s', k); }
    forall c, d | c in s'.calls && d in s'.calls && c != d && s'.calls[c].key == s'.calls[d].key
      ensures NONE.Meet(s'.calls[c].Kind(), s'.calls[d].Kind())
    {
      OwnCall(cfg, s, l, s', c);
      OwnCall(cfg, s, l, s', d);
      if c in s.calls && d in s.calls { assert NONE.Meet(s.calls[c].Kind(), s.calls[d].Kind()); }
    }
  }

  lemma FitsOn(cfg: L.Config, s: State, l: Label, s': State)
    requires Fits(cfg, s) && Next(cfg, NONE, s, l) == Some(s')
    ensures Fits(cfg, s')
  {
    ItemsAfter(cfg, s.at.items, OwnKey(s, l), OwnData(s, l), OwnKey(s, l));
  }

  lemma StagesKept(cfg: L.Config, s: State, l: Label, s': State, d: nat)
    requires Inv(cfg, s) && Keeps(s, l) && Next(cfg, NONE, s, l) == Some(s') && d in s'.calls
    ensures StageOk(s', s'.calls[d])
  {
    OwnCall(cfg, s, l, s', d);
    if Some(d) == CallOf(l) {
      OwnStageOk(cfg, s, l, s', d);
    } else if s.calls[d].key == OwnKey(s, l) {
      OtherStageOk(cfg, s, l, s', d);
    } else {
      OthersSpared(cfg, s, l, s', s.calls[d].key);
      SparedStage(s, s', s.calls[d]);
    }
  }

  lemma KeyKept(cfg: L.Config, s: State, l: Label, s': State, k: Key)
    requires Inv(cfg, s) && Keeps(s, l) && Next(cfg, NONE, s, l) == Some(s') && Unput(s', k)
    ensures !L.Stale(s'.at, k)
  {
    if k == OwnKey(s, l) {
      OwnKeyOk(cfg, s, l, s');
    } else {
      OthersSpared(cfg, s, l, s', k);
      forall d | d in s.calls && s.calls[d].key == k ensures !s.calls[d].Putting? { OwnCall(cfg, s, l, s', d); }
      assert Unput(s, k);
    }
  }

  function Start(store: map<Key, Bytes>): State { State(L.State([], store), map[]) }

  lemma {:induction false} RunKeeps(cfg: L.Config, store: map<Key, Bytes>, run: seq<Label>, s: State)
    requires cfg.Valid() && Exec(cfg, NONE, Start(store), run) == Some(s) && KeptRun(cfg, NONE, Start(store), run)
    ensures Inv(cfg, s)
    decreases |run|
  {
    if run != [] {
      var mid := Exec(cfg, NONE, Start(store), run[..|run| - 1]).value;
      RunKeeps(cfg, store, run[..|run| - 1], mid);
      StepKeeps(cfg, mid, run[|run| - 1], s);
    }
  }

  // ---- runs in which two calls overlap ----

  ghost predicate Reached(cfg: L.Config, may: Overlaps, init: State, s: State) {
    exists run :: Exec(cfg, may, init, run) == Some(s) && KeptRun(cfg, may, init, run)
  }

  lemma Step(cfg: L.Config, may: Overlaps, init: State, s: State, l: Label, s': State)
    requires Reached(cfg, may, init, s) && Next(cfg, may, s, l) == Some(s') && Keeps(s, l)
    ensures Reached(cfg, may, init, s')
  {
    var run :| Exec(cfg, may, init, run) == Some(s) && KeptRun(cfg, may, init, run);
    assert (run + [l])[..|run|] == run;
    assert Exec(cfg, may, init, run + [l]) == Some(s') && KeptRun(cfg, may, init, run + [l]);
  }

  /** The cache with one entry. */
  function Only(k: Key, data: Bytes): seq<L.Item> { [L.Item(k, L.Entry(data, |data|))] }

  /** Whatever was cached of k alone, filling it leaves one entry. */
  lemma FilledOnly(cfg: L.Config, s: State, k: Key, prev: Bytes, data: Bytes)
    requires cfg.Valid() && cfg.maxEntry >= 1 && |data| == 1 && (s.at.items == [] || s.at.items == Only(k, prev))
    ensures Filled(cfg, s, k, data) == s.Items(Only(k, data)) && L.Without(s.at.items, k) == [] && Caches(cfg, data)
    ensures L.Find(Only(k, data), k) == Some(L.Entry(data, 1))
  {
    assert cfg.capacity >= 64;
    assert Only(k, prev)[1..] == [];
    assert L.Without(s.at.items, k) == [];
  }

  /** A Get has missed in the cache and read [0] from the backend. */
  lemma GetFetches(cfg: L.Config, may: Overlaps, k: Key)
    ensures
      var init := Start(map[k := [0]]);
      Reached(cfg, may, init, State(L.State([], map[k := [0]]), map[0 := Fetched(k, [0])]))
  {
    var init := Start(map[k := [0]]);
    assert Exec(cfg, may, init, []) == Some(init) && KeptRun(cfg, may, init, []);
    Step(cfg, may, init, init, BeginGet(0, k), init.Go(0, Getting(k)));
    var s := State(L.State([], map[k := [0]]), map[0 := Fetched(k, [0])]);
    assert init.Go(0, Getting(k)).Go(0, Fetched(k, [0])) == s;
    Step(cfg, may, init, init.Go(0, Getting(k)), Fetch(0, true), s);
  }

  /** ... and, whatever has happened since, fills the cache with it. */
  lemma GetFills(cfg: L.Config, may: Overlaps, init: State, s: State, k: Key, prev: Bytes) returns (s': State)
    requires cfg.Valid() && cfg.maxEntry >= 1 && (s.at.items == [] || s.at.items == Only(k, prev))
    requires Reached(cfg, may, init, s) && s.calls == map[0 := Fetched(k, [0])]
    ensures Reached(cfg, may, init, s') && s' == State(L.State(Only(k, [0]), s.at.store), map[])
  {
    FilledOnly(cfg, s, k, prev, [0]);
    s' := State(L.State(Only(k, [0]), s.at.store), map[]);
    assert s.calls - {0} == map[];
    Step(cfg, may, init, s, Fill(0, true), s');
  }

  /** A one-byte Put of call c is cached, */
  lemma PutCaches(cfg: L.Config, may: Overlaps, init: State, s: State, c: nat, k: Key, prev: Bytes, data: Bytes)
    returns (s': State)
    requires cfg.Valid() && cfg.maxEntry >= 1 && |data| == 1 && (s.at.items == [] || s.at.items == Only(k, prev))
    requires Reached(cfg, may, init, s) && MayBegin(may, s, c, Putting(k, data, false))
    ensures Reached(cfg, may, init, s') && s' == s.Items(Only(k, data)).Go(c, Putting(k, data, true))
  {
    FilledOnly(cfg, s, k, prev, data);
    s' := s.Items(Only(k, data)).Go(c, Putting(k, data, true));
    Step(cfg, may, init, s, BeginPut(c, k, data, true), s');
  }

  /** ... and then stored, and returns nil. */
  lemma PutStores(cfg: L.Config, may: Overlaps, init: State, s: State, c: nat, k: Key, data: Bytes) returns (s': State)
    requires Reached(cfg, may, init, s) && c in s.calls && s.calls[c] == Putting(k, data, true)
    ensures Reached(cfg, may, init, s') && s' == s.Store(k, Some(data)).End(c)
  {
    s' := s.Store(k, Some(data)).End(c);
    Step(cfg, may, init, s, Send(c, Accepted), s');
  }

  /** A Delete of call c has emptied the cache, */
  lemma DeleteEmpties(cfg: L.Config, may: Overlaps, init: State, s: State, c: nat, k: Key) returns (s': State)
    requires s.at.items == [] && Reached(cfg, may, init, s) && MayBegin(may, s, c, Deleting(k))
    ensures Reached(cfg, may, init, s') && s' == s.Go(c, Deleting(k))
  {
    s' := s.Go(c, Deleting(k));
    Step(cfg, may, init, s, BeginDelete(c, k), s');
  }

  /** ... and then the backend, and returns nil. */
  lemma DeleteStores(cfg: L.Config, may: Overlaps, init: State, s: State, c: nat, k: Key) returns (s': State)
    requires Reached(cfg, may, init, s) && c in s.calls && s.calls[c] == Deleting(k)
    ensures Reached(cfg, may, init, s') && s' == s.Store(k, None).End(c)
  {
    s' := s.Store(k, None).End(c);
    Step(cfg, may, init, s, Remove(c, Accepted), s');
  }

  /** Some run of these calls, all of which succeed, ends with no call under way and a stale key. */
  ghost predicate LeavesStale(cfg: L.Config, may: Overlaps) {
    exists store, s, k :: Reached(cfg, may, Start(store), s) && s.calls == map[] && L.Stale(s.at, k)
  }

  /** A Put between the halves of a Get is hidden by its fill. */
  lemma GetPutIsSeen(cfg: L.Config, may: Overlaps, k: Key)
    requires cfg.Valid() && cfg.maxEntry >= 1 && may.getPut
    ensures LeavesStale(cfg, may)
  {
    var init := Start(map[k := [0]]);
    GetFetches(cfg, may, k);
    var s := State(L.State([], map[k := [0]]), map[0 := Fetched(k, [0])]);
    s := PutCaches(cfg, may, init, s, 1, k, [], [1]);
    s := PutStores(cfg, may, init, s, 1, k, [1]);
    assert s.calls == map[0 := Fetched(k, [0])];
    s := GetFills(cfg, may, init, s, k, [1]);
    assert L.Stale(s.at, k);
  }

  /** A Delete between the halves of a Get is hidden by its fill. */
  lemma GetDeleteIsSeen(cfg: L.Config, may: Overlaps, k: Key)
    requires cfg.Valid() && cfg.maxEntry >= 1 && may.getDelete
    ensures LeavesStale(cfg, may)
  {
    var init := Start(map[k := [0]]);
    GetFetches(cfg, may, k);
    var s := State(L.State([], map[k := [0]]), map[0 := Fetched(k, [0])]);
    s := DeleteEmpties(cfg, may, init, s, 1, k);
    s := DeleteStores(cfg, may, init, s, 1, k);
    assert s.calls == map[0 := Fetched(k, [0])];
    s := GetFills(cfg, may, init, s, k, []);
    assert L.Stale(s.at, k);
  }

  /** Of two Puts, the one that is stored last need not be the one that was cached last. */
  lemma PutPutIsSeen(cfg: L.Config, may: Overlaps, k: Key)
    requires cfg.Valid() && cfg.maxEntry >= 1 && may.putPut
    ensures LeavesStale(cfg, may)
  {
    var init, s := Start(map[]), Start(map[]);
    assert Exec(cfg, may, init, []) == Some(init) && KeptRun(cfg, may, init, []);
    s := PutCaches(cfg, may, init, s, 0, k, [], [0]);
    s := PutCaches(cfg, may, init, s, 1, k, [0], [1]);
    s := PutStores(cfg, may, init, s, 1, k, [1]);
    s := PutStores(cfg, may, init, s, 0, k, [0]);
    assert s.calls == map[] && s.at.items == Only(k, [1]) && L.Stale(s.at, k);
  }

  /** A Put between the halves of a Delete goes on being served though it is removed from the backend. */
  lemma PutDeleteIsSeen(cfg: L.Config, may: Overlaps, k: Key)
    requires cfg.Valid() && cfg.maxEntry >= 1 && may.putDelete
    ensures LeavesStale(cfg, may)
  {
    var init, s := Start(map[]), Start(map[]);
    assert Exec(cfg, may, init, []) == Some(init) && KeptRun(cfg, may, init, []);
    s := DeleteEmpties(cfg, may, init, s, 0, k);
    s := PutCaches(cfg, may, init, s, 1, k, [], [1]);
    s := PutStores(cfg, may, init, s, 1, k, [1]);
    assert s.calls == map[0 := Deleting(k)];
    s := DeleteStores(cfg, may, init, s, 0, k);
    assert s.calls == map[] && s.at.items == Only(k, [1]) && L.Stale(s.at, k);
  }

  // ---- exactly ----

  /** In every run that keeps to the condition on single calls, a key with no call under way is not stale. */
  ghost predicate AlwaysFresh(cfg: L.Config, may: Overlaps) {
    forall store, run, s, k ::
      Exec(cfg, may, Start(store), run) == Some(s) && KeptRun(cfg, may, Start(store), run) && s.Free(k)
      ==> !L.Stale(s.at, k)
  }

  lemma StaleIsSeen(cfg: L.Config, may: Overlaps)
    requires LeavesStale(cfg, may)
    ensures !AlwaysFresh(cfg, may)
  {
    var store, s, k :| Reached(cfg, may, Start(store), s) && s.calls == map[] && L.Stale(s.at, k);
    var run :| Exec(cfg, may, Start(store), run) == Some(s) && KeptRun(cfg, may, Start(store), run);
    assert s.Free(k);
  }

  /**
    Overlapping calls leave the cache in agreement with the backend, in every interleaving, exactly when no Put
    of a key overlaps another mutation or a Get of it, and no Delete a Get; or when nothing is ever cached.
   */
  lemma FreshExactly(cfg: L.Config, may: Overlaps)
    requires cfg.Valid()
    ensures AlwaysFresh(cfg, may) <==> may == NONE || cfg.maxEntry <= 0
  {
    if may == NONE {
      forall store, run, s, k |
        Exec(cfg, NONE, Start(store), run) == Some(s) && KeptRun(cfg, NONE, Start(store), run) && s.Free(k)
        ensures !L.Stale(s.at, k)
      {
        RunKeeps(cfg, store, run, s);
        assert Unput(s, k);
      }
    } else if cfg.maxEntry <= 0 {
      forall store, run, s, k | Exec(cfg, may, Start(store), run) == Some(s) ensures !L.Stale(s.at, k) {
        NothingCached(cfg, may, store, run, s);
      }
    } else {
      if may.getPut { GetPutIsSeen(cfg, may, ""); }
      else if may.getDelete { GetDeleteIsSeen(cfg, may, ""); }
      else if may.putPut { PutPutIsSeen(cfg, may, ""); }
      else { PutDeleteIsSeen(cfg, may, ""); }
      StaleIsSeen(cfg, may);
    }
  }

  lemma {:induction false} NothingCached(cfg: L.Config, may: Overlaps, store: map<Key, Bytes>, run: seq<Label>,
      s: State)
    requires cfg.maxEntry <= 0 && Exec(cfg, may, Start(store), run) == Some(s)
    ensures s.at.items == []
    decreases |run|
  {
    if run != [] {
      NothingCached(cfg, may, store, run[..|run| - 1], Exec(cfg, may, Start(store), run[..|run| - 1]).value);
    }
  }
}
