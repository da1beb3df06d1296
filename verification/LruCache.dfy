/**
  The in-memory cache in front of a backend: coherence with the backend it speeds up, and its memory
  bound. The recency list is the contract of the LRU library the code uses.
 */
module LruCache {
  import opened Answers
  import opened Arithmetic
  import opened Base

  // ---- the recency list, most recent first ----

  datatype Entry = Entry(data: Bytes, size: int)

  datatype Item = Item(key: Key, entry: Entry)

  function Find(items: seq<Item>, k: Key): Option<Entry> {
    if items == [] then None else if items[0].key == k then Some(items[0].entry) else Find(items[1..], k)
  }

  function Without(items: seq<Item>, k: Key): seq<Item> {
    if items == [] then [] else (if items[0].key == k then [] else [items[0]]) + Without(items[1..], k)
  }

  /** A lookup moves what it finds to the front. */
  function Touch(items: seq<Item>, k: Key): seq<Item> {
    if Find(items, k).None? then items else [Item(k, Find(items, k).value)] + Without(items, k)
  }

  /** Adding puts the entry at the front and, past the capacity, drops the oldest. */
  function Add(items: seq<Item>, capacity: nat, k: Key, e: Entry): seq<Item> {
    var all := [Item(k, e)] + Without(items, k);
    if |all| > capacity then all[..capacity] else all
  }

  lemma {:induction false} FindWithout(items: seq<Item>, k: Key, j: Key)
    ensures Find(Without(items, k), j) == if j == k then None else Find(items, j)
    ensures |Without(items, k)| <= |items| && (Find(items, k).Some? ==> |Without(items, k)| < |items|)
    ensures forall it :: it in Without(items, k) ==> it in items
  {
    if items != [] {
      FindWithout(items[1..], k, j);
      var rest := Without(items[1..], k);
      if items[0].key == k { assert [] + rest == rest; } else { assert ([items[0]] + rest)[1..] == rest; }
    }
  }

  lemma {:induction false} FindPrefix(items: seq<Item>, n: nat, j: Key)
    requires n <= |items|
    ensures Find(items[..n], j).Some? ==> Find(items[..n], j) == Find(items, j)
  {
    if n > 0 {
      assert items[..n][1..] == items[1..][..n - 1];
      FindPrefix(items[1..], n - 1, j);
    }
  }

  lemma {:induction false} FindIn(items: seq<Item>, k: Key)
    ensures Find(items, k).Some? ==> Item(k, Find(items, k).value) in items
  {
    if items != [] { FindIn(items[1..], k); }
  }

  lemma TouchKeeps(items: seq<Item>, k: Key, j: Key)
    ensures Find(Touch(items, k), j) == Find(items, j) && |Touch(items, k)| <= |items|
    ensures forall it :: it in Touch(items, k) ==> it in items
  {
    if Find(items, k).Some? {
      FindWithout(items, k, j);
      FindIn(items, k);
      assert Touch(items, k)[1..] == Without(items, k);
    }
  }

  lemma AddFinds(items: seq<Item>, capacity: nat, k: Key, e: Entry, j: Key)
    requires capacity >= 1 && |items| <= capacity
    ensures |Add(items, capacity, k, e)| <= capacity
    ensures Find(Add(items, capacity, k, e), k) == Some(e)
    ensures j != k && Find(Add(items, capacity, k, e), j).Some?
        ==> Find(Add(items, capacity, k, e), j) == Find(items, j)
    ensures forall it :: it in Add(items, capacity, k, e) ==> it in items || it == Item(k, e)
  {
    FindWithout(items, k, j);
    var all := [Item(k, e)] + Without(items, k);
    assert all[1..] == Without(items, k);
    if |all| > capacity { FindPrefix(all, capacity, j); }
  }

  // ---- sizing ----

  datatype Sizing = DivideByZero | Capacity(n: nat)

  /** NewLRUCache's estimate of the number of entries; integer division by maxEntry / 2 panics for maxEntry = 1. */
  function Size(maxTotal: int, maxEntry: int): Sizing {
    if maxEntry > 0 && maxTotal > 0 then
      if maxEntry / 2 == 0 then DivideByZero
      else
        var n := maxTotal / (maxEntry / 2);
        Capacity(if n < 64 then 64 else n)
    else Capacity(1024)
  }

  lemma SizingFailsExactly(maxTotal: int, maxEntry: int)
    ensures Size(maxTotal, maxEntry).DivideByZero? <==> maxEntry == 1 && maxTotal > 0
    ensures Size(maxTotal, maxEntry).Capacity? ==> Size(maxTotal, maxEntry).n >= 64
  {
  }

  /**
    The number of entries is 1024 without both limits; otherwise it is as many entries of half the largest size,
    rounded down, as fit the budget, but no fewer than 64.
   */
  lemma SizedExactly(maxTotal: int, maxEntry: int, n: nat, half: nat)
    requires Size(maxTotal, maxEntry) == Capacity(n)
    requires maxEntry > 0 ==> maxEntry == 2 * half || maxEntry == 2 * half + 1
    ensures maxTotal <= 0 || maxEntry <= 0 ==> n == 1024
    ensures maxTotal > 0 && maxEntry > 0 ==> maxTotal < (n + 1) * half && (n == 64 || (n > 64 && n * half <= maxTotal))
  {
    if maxTotal > 0 && maxEntry > 0 {
      assert half == maxEntry / 2;
      var q := maxTotal / half;
      assert q * half <= maxTotal < (q + 1) * half;
      MulMono(q + 1, n + 1, half);
    }
  }

  // ---- the operations ----

  datatype Config = Config(maxTotal: int, maxEntry: int, capacity: nat) {
    predicate Valid() { Size(maxTotal, maxEntry) == Capacity(capacity) }
    predicate Small(size: int) { maxEntry > 0 && size <= maxEntry }
    /** addToCache declines an entry above the total budget. */
    predicate Admits(data: Bytes) { !(maxTotal > 0 && |data| > maxTotal) }
  }

  datatype State = State(items: seq<Item>, store: map<Key, Bytes>)

  datatype Reply = Body(data: Bytes, size: int) | Sized(n: int) | Miss | Done | Failed

  datatype Op =
    | Get(key: Key, backend: bool, read: bool)
    | Head(key: Key, backend: bool)
    | Put(key: Key, data: Bytes, size: int, read: bool, answer: Answer)
    | Delete(key: Key, answer: Answer)
    | Outside(key: Key, content: Option<Bytes>)    // another writer changes the backend

  function Stored(store: map<Key, Bytes>, op: Op): map<Key, Bytes> {
    match op
    case Put(k, data, _, read, answer) => if !read || answer == Rejected(false) then store else store[k := data]
    case Delete(k, answer) => if answer == Rejected(false) then store else store - {k}
    case Outside(k, c) => if c.Some? then store[k := c.value] else store - {k}
    case _ => store
  }

  /** What the backend alone replies. */
  function Bare(store: map<Key, Bytes>, op: Op): Reply {
    match op
    case Get(k, backend, read) =>
      if !backend then Failed
      else if k !in store then Miss
      else if !read then Failed
      else Body(store[k], |store[k]|)
    case Head(k, backend) => if !backend then Failed else if k in store then Sized(|store[k]|) else Miss
    case Put(_, _, _, read, answer) => if read && answer.Accepted? then Done else Failed
    case Delete(_, answer) => if answer.Accepted? then Done else Failed
    case Outside(_, _) => Done
  }

  /** The recency list after an operation. */
  function Cached(cfg: Config, s: State, op: Op): seq<Item> {
    match op
    case Get(k, backend, read) =>
      if Find(s.items, k).Some? then Touch(s.items, k)
      else if backend && k in s.store && cfg.Small(|s.store[k]|) && read && cfg.Admits(s.store[k]) then
        Add(s.items, cfg.capacity, k, Entry(s.store[k], |s.store[k]|))
      else s.items
    case Head(k, _) => Touch(s.items, k)
    case Put(k, data, size, read, _) =>
      if cfg.Small(size) && read && cfg.Admits(data) then Add(s.items, cfg.capacity, k, Entry(data, size)) else s.items
    case Delete(k, _) => Without(s.items, k)
    case Outside(_, _) => s.items
  }

  function Step(cfg: Config, s: State, op: Op): State { State(Cached(cfg, s, op), Stored(s.store, op)) }

  function Answered(s: State, op: Op): Reply {
    match op
    case Get(k, _, _) =>
      var e := Find(s.items, k);
      if e.Some? then Body(e.value.data, e.value.size) else Bare(s.store, op)
    case Head(k, _) =>
      var e := Find(s.items, k);
      if e.Some? then Sized(e.value.size) else Bare(s.store, op)
    case _ => Bare(s.store, op)
  }

  /** The backend behind the cache. */
  class Backend {
    var store: map<Key, Bytes>

    constructor (store: map<Key, Bytes>)
      ensures this.store == store
    {
      this.store := store;
    }

    method Perform(op: Op) returns (r: Reply)
      modifies this
      ensures store == Stored(old(store), op) && r == Bare(old(store), op)
      ensures forall k :: k != op.key ==> Lookup(store, k) == Lookup(old(store), k)
      ensures
        match op
        case Get(k, ok, read) =>
          store == old(store) &&
          (r == if !ok then Failed
                else if k !in store then Miss
                else if read then Body(store[k], |store[k]|) else Failed)
        case Head(k, ok) =>
          store == old(store) && r == if !ok then Failed else if k in store then Sized(|store[k]|) else Miss
        case Put(k, data, _, read, answer) =>
          && (r.Done? <==> read && answer == Accepted) && (r.Failed? <==> !read || answer != Accepted)
          && store == if read && answer != Rejected(false) then old(store)[k := data] else old(store)
        case Delete(k, answer) =>
          && (r.Done? <==> answer == Accepted) && (r.Failed? <==> answer != Accepted)
          && store == if answer != Rejected(false) then old(store) - {k} else old(store)
        case Outside(k, content) => Lookup(store, k) == content
    {
      r := Bare(store, op);
      store := Stored(store, op);
    }
  }

  class Cache {
    const cfg: Config
    const backend: Backend
    var items: seq<Item>

    ghost predicate Valid()
      reads this
    {
      cfg.Valid() && |items| <= cfg.capacity && Distinct(items)
    }

    ghost function Abs(): State
      reads this, backend
    {
      State(items, backend.store)
    }

    /** Fails, by dividing by zero, exactly for maxEntry = 1 with a positive budget. */
    static method New(backend: Backend, maxTotal: int, maxEntry: int) returns (c: Cache?)
      ensures c == null <==> maxEntry == 1 && maxTotal > 0
      ensures c != null ==> fresh(c) && c.Valid() && c.items == [] && c.backend == backend
      ensures c != null ==> c.cfg.maxTotal == maxTotal && c.cfg.maxEntry == maxEntry
    {
      match Size(maxTotal, maxEntry)
      case DivideByZero => c := null;
      case Capacity(n) => c := new Cache(backend, Config(maxTotal, maxEntry, n));
    }

    constructor (backend: Backend, cfg: Config)
      requires cfg.Valid()
      ensures Valid() && this.cfg == cfg && this.backend == backend && items == []
    {
      this.cfg, this.backend, items := cfg, backend, [];
    }

    method AddToCache(k: Key, e: Entry)
      requires Valid()
      modifies this
      ensures Valid()
      ensures cfg.maxTotal > 0 && |e.data| > cfg.maxTotal ==> items == old(items)
      ensures !(cfg.maxTotal > 0 && |e.data| > cfg.maxTotal) ==>
        items == Add(old(items), cfg.capacity, k, e) && PutInFront(old(items), items, cfg.capacity, k, e)
    {
      if cfg.maxTotal > 0 && |e.data| > cfg.maxTotal { return; }
      AddFinds(items, cfg.capacity, k, e, k);
      AddDistinct(items, cfg.capacity, k, e);
      AddPutsInFront(items, cfg.capacity, k, e);
      items := Add(items, cfg.capacity, k, e);
    }

    method HeadEntry(k: Key, backendOk: bool) returns (r: Reply)
      requires Valid()
      modifies this, backend
      ensures Valid() && Abs() == Step(cfg, old(Abs()), Head(k, backendOk)) && backend.store == old(backend.store)
      ensures
        var e := Find(old(items), k);
        if e.Some? then r == Sized(e.value.size) && PutInFront(old(items), items, cfg.capacity, k, e.value)
        else
          && items == old(items)
          && r == if !backendOk then Failed else if k in backend.store then Sized(|backend.store[k]|) else Miss
    {
      var e := Find(items, k);
      TouchKeeps(items, k, k);
      AddDistinct(items, cfg.capacity, k, Entry([], 0));
      if e.Some? { TouchPutsInFront(items, cfg.capacity, k); }
      items := Touch(items, k);
      if e.Some? { return Sized(e.value.size); }
      r := backend.Perform(Head(k, backendOk));
    }

    /** A missed body of at most maxEntrySize is read to its end and cached. */
    method GetEntry(k: Key, backendOk: bool, readOk: bool) returns (r: Reply)
      requires Valid()
      modifies this, backend
      ensures Valid() && Abs() == Step(cfg, old(Abs()), Get(k, backendOk, readOk))
      ensures backend.store == old(backend.store)
      ensures
        var e := Find(old(items), k);
        if e.Some? then
          r == Body(e.value.data, e.value.size) && PutInFront(old(items), items, cfg.capacity, k, e.value)
        else if !backendOk then r == Failed && items == old(items)
        else if k !in backend.store then r == Miss && items == old(items)
        else if !readOk then r == Failed && items == old(items)
        else
          var body := backend.store[k];
          && r == Body(body, |body|)
          && if 0 < cfg.maxEntry && |body| <= cfg.maxEntry && (cfg.maxTotal <= 0 || |body| <= cfg.maxTotal)
             then PutInFront(old(items), items, cfg.capacity, k, Entry(body, |body|))
             else items == old(items)
    {
      var e := Find(items, k);
      if e.Some? {
        TouchKeeps(items, k, k);
        AddDistinct(items, cfg.capacity, k, e.value);
        TouchPutsInFront(items, cfg.capacity, k);
        items := Touch(items, k);
        return Body(e.value.data, e.value.size);
      }
      r := backend.Perform(Get(k, backendOk, readOk));
      if r.Body? && cfg.Small(r.size) {
        AddToCache(k, Entry(r.data, r.size));
      }
    }

    /** The entry is cached before the backend is asked, and stays cached when the backend fails. */
    method PutEntry(k: Key, data: Bytes, size: int, readOk: bool, answer: Answer) returns (r: Reply)
      requires Valid()
      modifies this, backend
      ensures Valid() && Abs() == Step(cfg, old(Abs()), Put(k, data, size, readOk, answer))
      ensures (r.Done? <==> readOk && answer == Accepted) && (r.Failed? <==> !readOk || answer != Accepted)
      ensures backend.store ==
        if readOk && answer != Rejected(false) then old(backend.store)[k := data] else old(backend.store)
      ensures
        if readOk && 0 < cfg.maxEntry && size <= cfg.maxEntry && (cfg.maxTotal <= 0 || |data| <= cfg.maxTotal)
        then PutInFront(old(items), items, cfg.capacity, k, Entry(data, size))
        else items == old(items)
    {
      if cfg.Small(size) {
        if !readOk { return Failed; }
        AddToCache(k, Entry(data, size));
      }
      r := backend.Perform(Put(k, data, size, readOk, answer));
    }

    method DeleteEntry(k: Key, answer: Answer) returns (r: Reply)
      requires Valid()
      modifies this, backend
      ensures Valid() && Abs() == Step(cfg, old(Abs()), Delete(k, answer))
      ensures (r.Done? <==> answer == Accepted) && (r.Failed? <==> answer != Accepted)
      ensures backend.store == if answer != Rejected(false) then old(backend.store) - {k} else old(backend.store)
      ensures forall j :: Find(items, j) == if j == k then None else Find(old(items), j)
    {
      WithoutDistinct(items, k);
      FindWithout(items, k, k);
      forall j ensures Find(Without(items, k), j) == if j == k then None else Find(items, j) {
        FindWithout(items, k, j);
      }
      items := Without(items, k);
      r := backend.Perform(Delete(k, answer));
    }
  }

  // ---- coherence ----

  /** The cached entry of k is not what the backend holds at k. */
  predicate Stale(s: State, k: Key) {
    Find(s.items, k).Some? && Lookup(s.store, k) != Some(Find(s.items, k).value.data)
  }

  /** A Put declares the number of bytes it carries. */
  predicate Honest(op: Op) { op.Put? ==> op.size == |op.data| }

  ghost predicate Ok(cfg: Config, s: State) {
    cfg.Valid() && |s.items| <= cfg.capacity && forall it :: it in s.items ==> it.entry.size == |it.entry.data|
  }

  lemma StepOk(cfg: Config, s: State, op: Op)
    requires Ok(cfg, s) && Honest(op)
    ensures Ok(cfg, Step(cfg, s, op))
  {
    var k := op.key;
    TouchKeeps(s.items, k, k);
    FindWithout(s.items, k, k);
    match op
    case Get(_, _, _) => if k in s.store { AddFinds(s.items, cfg.capacity, k, Entry(s.store[k], |s.store[k]|), k); }
    case Put(_, data, size, _, _) => AddFinds(s.items, cfg.capacity, k, Entry(data, size), k);
    case _ =>
  }

  /** What an operation leaves in the cache of any key: its own new entry, or what was there, or nothing. */
  lemma FindAfter(cfg: Config, s: State, op: Op, j: Key)
    requires Ok(cfg, s) && Honest(op)
    ensures
      var e, e' := Find(s.items, j), Find(Step(cfg, s, op).items, j);
      if op.key != j then e'.Some? ==> e' == e
      else
        match op
        case Get(_, backend, read) =>
          if e.None? && backend && read && j in s.store && cfg.Small(|s.store[j]|) && cfg.Admits(s.store[j])
          then e' == Some(Entry(s.store[j], |s.store[j]|)) else e' == e
        case Put(_, data, size, read, _) =>
          if cfg.Small(size) && read && cfg.Admits(data) then e' == Some(Entry(data, size)) else e' == e
        case Delete(_, _) => e' == None
        case _ => e' == e
    ensures op.Head? || op.Outside? || op.Delete? ==>
      op.key != j ==> Find(Step(cfg, s, op).items, j) == Find(s.items, j)
  {
    var k := op.key;
    TouchKeeps(s.items, k, j);
    FindWithout(s.items, k, j);
    match op
    case Get(_, _, _) => if k in s.store { AddFinds(s.items, cfg.capacity, k, Entry(s.store[k], |s.store[k]|), j); }
    case Put(_, data, size, _, _) => AddFinds(s.items, cfg.capacity, k, Entry(data, size), j);
    case _ =>
  }

  /**
    When a key becomes stale: a Put of it is cached and the backend drops it, or a Put of it is too large
    to cache over a different cached entry and the backend takes it, or somebody else changes the backend
    under it.
   */
  predicate Spoils(cfg: Config, s: State, op: Op, j: Key) {
    && op.key == j
    && match op
       case Put(_, data, size, read, answer) =>
         if !read then false
         else if cfg.Small(size) && cfg.Admits(data) then answer == Rejected(false) && Lookup(s.store, j) != Some(data)
         else answer != Rejected(false) && Find(s.items, j).Some? && Find(s.items, j).value.data != data
       case Outside(_, c) => Find(s.items, j).Some? && c != Some(Find(s.items, j).value.data)
       case _ => false
  }

  lemma BecomesStaleExactly(cfg: Config, s: State, op: Op, j: Key)
    requires Ok(cfg, s) && Honest(op) && !Stale(s, j)
    ensures Stale(Step(cfg, s, op), j) <==> Spoils(cfg, s, op, j)
  {
    FindAfter(cfg, s, op, j);
  }

  /** A Delete, even a failed one, and a cached successful Put always end staleness. */
  lemma EndsStaleness(cfg: Config, s: State, op: Op)
    requires Ok(cfg, s) && Honest(op)
    requires op.Delete? || (op.Put? && cfg.Small(op.size) && cfg.Admits(op.data) && op.read
        && op.answer != Rejected(false))
    ensures !Stale(Step(cfg, s, op), op.key)
  {
    FindAfter(cfg, s, op, op.key);
  }

  // ---- the end of staleness ----

  /** No key is in the list twice. */
  ghost predicate Distinct(items: seq<Item>) {
    forall a, b :: 0 <= a < b < |items| ==> items[a].key != items[b].key
  }

  lemma TailDiffers(items: seq<Item>)
    requires items != [] && Distinct(items)
    ensures Distinct(items[1..]) && forall it :: it in items[1..] ==> it.key != items[0].key
  {
  }

  lemma PrependDistinct(first: Item, rest: seq<Item>)
    requires Distinct(rest) && forall it :: it in rest ==> it.key != first.key
    ensures Distinct([first] + rest)
  {
  }

  lemma {:induction false} WithoutAbsent(items: seq<Item>, k: Key)
    requires Find(items, k).None?
    ensures Without(items, k) == items
  {
    if items != [] { WithoutAbsent(items[1..], k); }
  }

  lemma {:induction false} WithoutDistinct(items: seq<Item>, k: Key)
    requires Distinct(items)
    ensures Distinct(Without(items, k))
  {
    if items != [] {
      var first, rest := items[0], Without(items[1..], k);
      TailDiffers(items);
      WithoutDistinct(items[1..], k);
      FindWithout(items[1..], k, k);
      if first.key == k {
        assert Without(items, k) == [] + rest == rest;
      } else {
        PrependDistinct(first, rest);
        assert Without(items, k) == [first] + rest;
      }
    }
  }

  lemma {:induction false} AbsentExactly(items: seq<Item>, k: Key)
    ensures Find(items, k).None? <==> forall it :: it in items ==> it.key != k
  {
    if items != [] {
      AbsentExactly(items[1..], k);
      assert items == [items[0]] + items[1..];
    }
  }

  lemma AddDistinct(items: seq<Item>, capacity: nat, k: Key, e: Entry)
    requires Distinct(items)
    ensures Distinct(Add(items, capacity, k, e)) && Distinct(Touch(items, k))
  {
    WithoutDistinct(items, k);
    FindWithout(items, k, k);
    AbsentExactly(Without(items, k), k);
    PrependDistinct(Item(k, e), Without(items, k));
    if Find(items, k).Some? { PrependDistinct(Item(k, Find(items, k).value), Without(items, k)); }
  }

  lemma {:induction false} DistinctRun(cfg: Config, store: map<Key, Bytes>, ops: seq<Op>)
    ensures Distinct(Run(cfg, State([], store), ops).items)
    decreases |ops|
  {
    if ops != [] {
      var s, op := Run(cfg, State([], store), ops[..|ops| - 1]), ops[|ops| - 1];
      DistinctRun(cfg, store, ops[..|ops| - 1]);
      DistinctStep(cfg, s, op);
    }
  }

  lemma DistinctStep(cfg: Config, s: State, op: Op)
    requires Distinct(s.items)
    ensures Distinct(Step(cfg, s, op).items)
  {
    var k := op.key;
    AddDistinct(s.items, cfg.capacity, k, if k in s.store then Entry(s.store[k], |s.store[k]|) else Entry([], 0));
    WithoutDistinct(s.items, k);
    if op.Put? { AddDistinct(s.items, cfg.capacity, k, Entry(op.data, op.size)); }
  }

  /** The operation adds an entry for its key. */
  predicate Adds(cfg: Config, s: State, op: Op) {
    match op
    case Get(k, backend, read) =>
      Find(s.items, k).None? && backend && k in s.store && cfg.Small(|s.store[k]|) && read && cfg.Admits(s.store[k])
    case Put(_, data, size, read, _) => cfg.Small(size) && read && cfg.Admits(data)
    case _ => false
  }

  /** The entry of j is the oldest of a full cache, and an entry that is not cached is added. */
  predicate Displaces(cfg: Config, s: State, op: Op, j: Key) {
    && Adds(cfg, s, op) && Find(s.items, op.key).None?
    && |s.items| == cfg.capacity && s.items != [] && s.items[|s.items| - 1].key == j
  }

  lemma {:induction false} DropLast(items: seq<Item>, j: Key)
    requires items != [] && Distinct(items) && Find(items, j).Some?
    ensures Find(items[..|items| - 1], j).None? <==> items[|items| - 1].key == j
  {
    var n := |items| - 1;
    AbsentExactly(items[..n], j);
    FindIn(items, j);
    assert items == items[..n] + [items[n]];
    if items[n].key == j {
      forall it | it in items[..n] ensures it.key != j {
        var a :| 0 <= a < n && items[..n][a] == it;
        assert items[a].key != items[n].key;
      }
    }
  }

  /** Adding an entry drops another one exactly when it is the oldest and there is no room. */
  lemma AddDropsExactly(items: seq<Item>, capacity: nat, k: Key, e: Entry, j: Key)
    requires capacity >= 1 && |items| <= capacity && Distinct(items) && Find(items, j).Some? && j != k
    ensures Find(Add(items, capacity, k, e), j).None? <==>
      Find(items, k).None? && |items| == capacity && items[|items| - 1].key == j
  {
    FindWithout(items, k, j);
    if Find(items, k).None? { AddNewDrops(items, capacity, k, e, j); } else { FindBehind(Without(items, k), k, e, j); }
  }

  lemma FindBehind(items: seq<Item>, k: Key, e: Entry, j: Key)
    requires j != k
    ensures Find([Item(k, e)] + items, j) == Find(items, j)
  {
    assert ([Item(k, e)] + items)[1..] == items;
  }

  lemma AddNewDrops(items: seq<Item>, capacity: nat, k: Key, e: Entry, j: Key)
    requires capacity >= 1 && |items| <= capacity && Distinct(items) && Find(items, j).Some? && j != k
    requires Find(items, k).None?
    ensures Find(Add(items, capacity, k, e), j).None? <==> |items| == capacity && items[|items| - 1].key == j
  {
    WithoutAbsent(items, k);
    var all := [Item(k, e)] + items;
    if |all| > capacity {
      assert all[..capacity] == [Item(k, e)] + items[..capacity - 1];
      FindBehind(items[..capacity - 1], k, e, j);
      DropLast(items, j);
    } else {
      FindBehind(items, k, e, j);
    }
  }

  /**
    What bringing an entry to the front does: every other key keeps its entry, save the last of a full list when the
    entry brought is of a key that had none.
   */
  ghost predicate PutInFront(before: seq<Item>, after: seq<Item>, capacity: nat, k: Key, e: Entry) {
    && after != [] && after[0] == Item(k, e)
    && forall j :: j != k ==>
      Find(after, j) ==
      if Find(before, k).None? && before != [] && |before| == capacity && before[|before| - 1].key == j then None
      else Find(before, j)
  }

  lemma AddPutsInFront(items: seq<Item>, capacity: nat, k: Key, e: Entry)
    requires capacity >= 1 && |items| <= capacity && Distinct(items)
    ensures PutInFront(items, Add(items, capacity, k, e), capacity, k, e)
  {
    forall j | j != k
      ensures Find(Add(items, capacity, k, e), j) ==
        if Find(items, k).None? && items != [] && |items| == capacity && items[|items| - 1].key == j then None
        else Find(items, j)
    {
      AddFinds(items, capacity, k, e, j);
      if Find(items, j).Some? { AddDropsExactly(items, capacity, k, e, j); }
    }
  }

  lemma TouchPutsInFront(items: seq<Item>, capacity: nat, k: Key)
    requires Find(items, k).Some?
    ensures PutInFront(items, Touch(items, k), capacity, k, Find(items, k).value)
  {
    forall j ensures Find(Touch(items, k), j) == Find(items, j) { TouchKeeps(items, k, j); }
  }

  /** An operation on another key drops a cached one exactly when it displaces it. */
  lemma DisplacedExactly(cfg: Config, s: State, op: Op, j: Key)
    requires Ok(cfg, s) && Distinct(s.items) && Find(s.items, j).Some? && op.key != j
    ensures Find(Step(cfg, s, op).items, j).None? <==> Displaces(cfg, s, op, j)
  {
    var k := op.key;
    TouchKeeps(s.items, k, j);
    FindWithout(s.items, k, j);
    match op
    case Get(_, _, _) =>
      if k in s.store { AddDropsExactly(s.items, cfg.capacity, k, Entry(s.store[k], |s.store[k]|), j); }
    case Put(_, data, size, _, _) => AddDropsExactly(s.items, cfg.capacity, k, Entry(data, size), j);
    case _ =>
  }

  /**
    What ends the staleness of key j: its Delete, even a failed one; a Put of it that is cached, when the
    backend takes it or already holds the same; a Put of it that is not cached but taken, or an outside
    change, when it makes the backend hold what is cached; or its displacement by another entry.
   */
  predicate Mends(cfg: Config, s: State, op: Op, j: Key)
    requires Find(s.items, j).Some?
  {
    var cached := Find(s.items, j).value.data;
    if op.key != j then Displaces(cfg, s, op, j)
    else
      match op
      case Delete(_, _) => true
      case Put(_, data, _, read, answer) =>
        if Adds(cfg, s, op) then answer != Rejected(false) || Lookup(s.store, j) == Some(data)
        else read && answer != Rejected(false) && data == cached
      case Outside(_, c) => c == Some(cached)
      case _ => false
  }

  lemma EndsStalenessExactly(cfg: Config, s: State, op: Op, j: Key)
    requires Ok(cfg, s) && Honest(op) && Distinct(s.items) && Stale(s, j)
    ensures !Stale(Step(cfg, s, op), j) <==> Mends(cfg, s, op, j)
  {
    FindAfter(cfg, s, op, j);
    if op.key != j { DisplacedExactly(cfg, s, op, j); }
  }

  /** A read through the cache says what the backend would exactly when the key is not stale. */
  lemma ReadAgreesExactly(cfg: Config, s: State, k: Key)
    requires Ok(cfg, s)
    ensures Answered(s, Get(k, true, true)) == Bare(s.store, Get(k, true, true)) <==> !Stale(s, k)
    ensures !Stale(s, k) ==> Answered(s, Head(k, true)) == Bare(s.store, Head(k, true))
  {
    FindIn(s.items, k);
  }

  function Run(cfg: Config, s: State, ops: seq<Op>): State
    decreases |ops|
  {
    if ops == [] then s else Step(cfg, Run(cfg, s, ops[..|ops| - 1]), ops[|ops| - 1])
  }

  function BareRun(store: map<Key, Bytes>, ops: seq<Op>): map<Key, Bytes>
    decreases |ops|
  {
    if ops == [] then store else Stored(BareRun(store, ops[..|ops| - 1]), ops[|ops| - 1])
  }

  /** No step of the run spoils a key that is in good order. */
  ghost predicate NeverSpoils(cfg: Config, s: State, ops: seq<Op>)
    decreases |ops|
  {
    ops == [] ||
    (NeverSpoils(cfg, s, ops[..|ops| - 1])
     && !Spoils(cfg, Run(cfg, s, ops[..|ops| - 1]), ops[|ops| - 1], ops[|ops| - 1].key))
  }

  /**
    From an empty cache, the backend goes through the states it would go through without the cache; and a
    run that never spoils a key gets, at its end, the reply of the bare backend to every operation the
    backend does not fail.
   */
  lemma {:induction false} Transparent(cfg: Config, store: map<Key, Bytes>, ops: seq<Op>, op: Op)
    requires cfg.Valid() && (forall i :: 0 <= i < |ops| ==> Honest(ops[i]))
    ensures var s := Run(cfg, State([], store), ops); Ok(cfg, s) && s.store == BareRun(store, ops)
    ensures NeverSpoils(cfg, State([], store), ops) ==>
      && (forall j :: !Stale(Run(cfg, State([], store), ops), j))
      && (Bare(BareRun(store, ops), op) != Failed ==>
            Answered(Run(cfg, State([], store), ops), op) == Bare(BareRun(store, ops), op))
    decreases |ops|
  {
    var s := Run(cfg, State([], store), ops);
    if ops != [] {
      var before := Run(cfg, State([], store), ops[..|ops| - 1]);
      Transparent(cfg, store, ops[..|ops| - 1], op);
      StepOk(cfg, before, ops[|ops| - 1]);
      if NeverSpoils(cfg, State([], store), ops) {
        forall j ensures !Stale(s, j) { BecomesStaleExactly(cfg, before, ops[|ops| - 1], j); }
      }
    }
    FindIn(s.items, op.key);
    if NeverSpoils(cfg, State([], store), ops) { assert !Stale(s, op.key); }
  }

  /** At the end of any run from an empty cache, the next operation ends the staleness of a key exactly so. */
  lemma StalenessEndsExactly(cfg: Config, store: map<Key, Bytes>, ops: seq<Op>, op: Op, j: Key)
    requires cfg.Valid() && (forall i :: 0 <= i < |ops| ==> Honest(ops[i])) && Honest(op)
    requires Stale(Run(cfg, State([], store), ops), j)
    ensures
      var s := Run(cfg, State([], store), ops);
      !Stale(Step(cfg, s, op), j) <==> Mends(cfg, s, op, j)
  {
    Transparent(cfg, store, ops, op);
    DistinctRun(cfg, store, ops);
    EndsStalenessExactly(cfg, Run(cfg, State([], store), ops), op, j);
  }

  // ---- what an acknowledged mutation leaves ----

  /** The operation leaves the backend's content of k alone. */
  predicate Spares(op: Op, k: Key) { op.key != k || op.Get? || op.Head? }

  lemma {:induction false} StaysInOrder(cfg: Config, s: State, ops: seq<Op>, k: Key)
    requires Ok(cfg, s) && !Stale(s, k)
    requires forall i :: 0 <= i < |ops| ==> Honest(ops[i]) && Spares(ops[i], k)
    ensures
      var end := Run(cfg, s, ops);
      Ok(cfg, end) && !Stale(end, k) && Lookup(end.store, k) == Lookup(s.store, k)
    decreases |ops|
  {
    if ops != [] {
      StaysInOrder(cfg, s, ops[..|ops| - 1], k);
      var mid := Run(cfg, s, ops[..|ops| - 1]);
      StepOk(cfg, mid, ops[|ops| - 1]);
      BecomesStaleExactly(cfg, mid, ops[|ops| - 1], k);
    }
  }

  /** The Put is not cached and leaves a different entry in front of what it stores. */
  predicate HidesItself(cfg: Config, s: State, op: Op)
    requires op.Put?
  {
    && !(cfg.Small(op.size) && cfg.Admits(op.data))
    && Find(s.items, op.key).Some? && Find(s.items, op.key).value.data != op.data
  }

  /**
    What an acknowledged Put stored is read back, after any operations that leave its key alone, exactly when it
    does not hide itself; a key whose Delete was acknowledged reads as missing.
   */
  lemma AcknowledgedReadsBack(cfg: Config, s: State, op: Op, later: seq<Op>)
    requires Ok(cfg, s) && Honest(op) && (op.Put? || op.Delete?) && Answered(s, op) == Done
    requires forall i :: 0 <= i < |later| ==> Honest(later[i]) && Spares(later[i], op.key)
    ensures
      var k, after := op.key, Step(cfg, s, op);
      var end := Run(cfg, after, later);
      if op.Delete? then k !in after.store && Answered(end, Get(k, true, true)) == Miss
      else
        && Lookup(after.store, k) == Some(op.data)
        && (Answered(after, Get(k, true, true)) == Body(op.data, |op.data|) <==> !HidesItself(cfg, s, op))
        && (!HidesItself(cfg, s, op) ==> Answered(end, Get(k, true, true)) == Body(op.data, |op.data|))
  {
    var k, after := op.key, Step(cfg, s, op);
    StepOk(cfg, s, op);
    FindAfter(cfg, s, op, k);
    ReadAgreesExactly(cfg, after, k);
    if !Stale(after, k) {
      StaysInOrder(cfg, after, later, k);
      ReadAgreesExactly(cfg, Run(cfg, after, later), k);
    }
  }

  // ---- the least recently used entry goes first ----

  /** A lookup that finds an entry uses it, and so does caching it. */
  predicate Uses(cfg: Config, s: State, op: Op) {
    Adds(cfg, s, op) || ((op.Get? || op.Head?) && Find(s.items, op.key).Some?)
  }

  /** The number of the latest operation of a run from the empty cache that used k. */
  function LatestUse(cfg: Config, store: map<Key, Bytes>, ops: seq<Op>, k: Key): (n: int)
    ensures n < |ops|
    decreases |ops|
  {
    if ops == [] then -1
    else
      var before, op := ops[..|ops| - 1], ops[|ops| - 1];
      if op.key == k && Uses(cfg, Run(cfg, State([], store), before), op) then |ops| - 1
      else LatestUse(cfg, store, before, k)
  }

  /** Every item is of a key used later than those behind it. */
  ghost predicate Ordered(items: seq<Item>, use: Key -> int) {
    forall a, b :: 0 <= a < b < |items| ==> use(items[b].key) < use(items[a].key)
  }

  lemma {:induction false} WithoutOrdered(items: seq<Item>, k: Key, use: Key -> int)
    requires Ordered(items, use)
    ensures Ordered(Without(items, k), use)
  {
    if items != [] {
      var rest := Without(items[1..], k);
      WithoutOrdered(items[1..], k, use);
      FindWithout(items[1..], k, k);
      if items[0].key == k { assert Without(items, k) == rest; } else { FrontOrdered(items[0], rest, use); }
    }
  }

  lemma FrontOrdered(first: Item, rest: seq<Item>, use: Key -> int)
    requires Ordered(rest, use) && forall it :: it in rest ==> use(it.key) < use(first.key)
    ensures Ordered([first] + rest, use)
  {
  }

  /** A step that uses its key puts an item of it before the others, of which the last may go. */
  lemma UsedFirst(cfg: Config, s: State, op: Op) returns (first: Item, n: nat)
    requires Uses(cfg, s, op)
    ensures n <= |[first] + Without(s.items, op.key)| && first.key == op.key
    ensures Step(cfg, s, op).items == ([first] + Without(s.items, op.key))[..n]
  {
    var k := op.key;
    if Find(s.items, k).Some? && !op.Put? {
      first := Item(k, Find(s.items, k).value);
    } else {
      first := Item(k, if op.Put? then Entry(op.data, op.size) else Entry(s.store[k], |s.store[k]|));
    }
    var all := [first] + Without(s.items, k);
    n := if |all| > cfg.capacity && Adds(cfg, s, op) then cfg.capacity else |all|;
    assert all[..|all|] == all;
  }

  lemma WithoutUsed(items: seq<Item>, k: Key, use: Key -> int, use': Key -> int)
    requires Ordered(items, use) && forall j :: j != k ==> use'(j) == use(j)
    ensures Ordered(Without(items, k), use') && forall it :: it in Without(items, k) ==> it.key != k
  {
    WithoutOrdered(items, k, use);
    FindWithout(items, k, k);
    AbsentExactly(Without(items, k), k);
  }

  /** A step that uses its key brings it to the front, and any other keeps the order. */
  lemma StepOrdered(cfg: Config, s: State, op: Op, use: Key -> int, use': Key -> int)
    requires Ordered(s.items, use)
    requires forall k :: k != op.key || !Uses(cfg, s, op) ==> use'(k) == use(k)
    requires Uses(cfg, s, op) ==> forall k :: k != op.key ==> use(k) < use'(op.key)
    ensures Ordered(Step(cfg, s, op).items, use')
  {
    WithoutUsed(s.items, op.key, use, use');
    if Uses(cfg, s, op) {
      var first, n := UsedFirst(cfg, s, op);
      FrontOrdered(first, Without(s.items, op.key), use');
    }
  }

  lemma {:induction false} RunOrdered(cfg: Config, store: map<Key, Bytes>, ops: seq<Op>)
    requires cfg.Valid()
    ensures Ordered(Run(cfg, State([], store), ops).items, k => LatestUse(cfg, store, ops, k))
    decreases |ops|
  {
    if ops != [] {
      var before := ops[..|ops| - 1];
      RunOrdered(cfg, store, before);
      StepOrdered(cfg, Run(cfg, State([], store), before), ops[|ops| - 1],
                  k => LatestUse(cfg, store, before, k), k => LatestUse(cfg, store, ops, k));
    }
  }

  /** The last of an ordered list is the least recently used. */
  lemma LastIsLeast(items: seq<Item>, use: Key -> int, i: Key)
    requires Ordered(items, use) && Find(items, i).Some? && items[|items| - 1].key != i
    ensures use(items[|items| - 1].key) < use(i)
  {
    FindIn(items, i);
    var a :| 0 <= a < |items| && items[a].key == i;
  }

  /** At the end of any run from the empty cache, the entry an operation pushes out is the least recently used one. */
  lemma LeastRecentGoes(cfg: Config, store: map<Key, Bytes>, ops: seq<Op>, op: Op, j: Key, i: Key)
    requires cfg.Valid() && forall n :: 0 <= n < |ops| ==> Honest(ops[n])
    requires
      var s := Run(cfg, State([], store), ops);
      && Find(s.items, j).Some? && Find(s.items, i).Some? && i != j
      && op.key != j && Find(Step(cfg, s, op).items, j).None?
    ensures LatestUse(cfg, store, ops, j) < LatestUse(cfg, store, ops, i)
  {
    var s := Run(cfg, State([], store), ops);
    Transparent(cfg, store, ops, op);
    DistinctRun(cfg, store, ops);
    DisplacedExactly(cfg, s, op, j);
    RunOrdered(cfg, store, ops);
    LastIsLeast(s.items, k => LatestUse(cfg, store, ops, k), i);
  }

  // ---- concurrent fills ----

  /** The second half of a Get that read `data` from the backend earlier. */
  function LateFill(cfg: Config, s: State, k: Key, data: Bytes): State {
    if cfg.Small(|data|) && cfg.Admits(data) then s.(items := Add(s.items, cfg.capacity, k, Entry(data, |data|))) else s
  }

  /**
    A late fill leaves its key in good order exactly when the backend still has what it read, or it is declined
    over a good entry.
   */
  lemma LateFillStaleExactly(cfg: Config, s: State, k: Key, data: Bytes)
    requires Ok(cfg, s)
    ensures Stale(LateFill(cfg, s, k, data), k) <==>
      if cfg.Small(|data|) && cfg.Admits(data) then Lookup(s.store, k) != Some(data) else Stale(s, k)
  {
    AddFinds(s.items, cfg.capacity, k, Entry(data, |data|), k);
  }

  /** A Put or a Delete that succeeds between the two halves of a Get is hidden by the cache. */
  lemma MutationDuringGetIsHidden(cfg: Config, s: State, k: Key, op: Op)
    requires Ok(cfg, s) && Honest(op) && k in s.store && cfg.Small(|s.store[k]|) && cfg.Admits(s.store[k])
    requires op.key == k && ((op.Put? && op.read && op.data != s.store[k]) || op.Delete?) && op.answer == Accepted
    ensures Answered(s, op) == Done
    ensures
      var end := LateFill(cfg, Step(cfg, s, op), k, s.store[k]);
      Stale(end, k) && Answered(end, Get(k, true, true)) == Body(s.store[k], |s.store[k]|)
  {
    StepOk(cfg, s, op);
    LateFillStaleExactly(cfg, Step(cfg, s, op), k, s.store[k]);
    AddFinds(Step(cfg, s, op).items, cfg.capacity, k, Entry(s.store[k], |s.store[k]|), k);
  }
}
