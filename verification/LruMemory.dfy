/** How many bytes the in-memory cache can come to hold, exactly. */
module LruMemory {
  import opened Answers
  import opened Arithmetic
  import opened Base
  import opened LruCache

  function TotalBytes(items: seq<Item>): nat {
    if items == [] then 0 else |items[0].entry.data| + TotalBytes(items[1..])
  }

  function Min(a: int, b: int): int { if a < b then a else b }
  function Max(a: int, b: int): int { if a < b then b else a }

  /** The largest entry the cache admits. */
  function Largest(cfg: Config): int { Min(cfg.maxEntry, cfg.maxTotal) }

  /** With both limits positive: no division by zero, and a cache that is in use. */
  predicate Limited(cfg: Config) { cfg.Valid() && cfg.maxEntry > 0 && cfg.maxTotal > 0 }

  ghost predicate Fits(cfg: Config, s: State) {
    |s.items| <= cfg.capacity && forall it :: it in s.items ==> |it.entry.data| <= Largest(cfg)
  }

  lemma StepFits(cfg: Config, s: State, op: Op)
    requires Limited(cfg) && Fits(cfg, s) && Honest(op)
    ensures Fits(cfg, Step(cfg, s, op))
  {
    var k := op.key;
    TouchKeeps(s.items, k, k);
    FindWithout(s.items, k, k);
    match op
    case Get(_, _, _) => if k in s.store { AddFinds(s.items, cfg.capacity, k, Entry(s.store[k], |s.store[k]|), k); }
    case Put(_, data, size, _, _) => AddFinds(s.items, cfg.capacity, k, Entry(data, size), k);
    case _ =>
  }

  lemma {:induction false} RunFits(cfg: Config, store: map<Key, Bytes>, ops: seq<Op>)
    requires Limited(cfg) && forall i :: 0 <= i < |ops| ==> Honest(ops[i])
    ensures Fits(cfg, Run(cfg, State([], store), ops))
    decreases |ops|
  {
    if ops != [] {
      RunFits(cfg, store, ops[..|ops| - 1]);
      StepFits(cfg, Run(cfg, State([], store), ops[..|ops| - 1]), ops[|ops| - 1]);
    }
  }

  lemma {:induction false} BytesBound(items: seq<Item>, m: int)
    requires forall it :: it in items ==> |it.entry.data| <= m
    ensures TotalBytes(items) <= |items| * m
  {
    if items != [] {
      BytesBound(items[1..], m);
      assert |items| * m == (|items| - 1) * m + m;
    }
  }

  /** In every run the cache holds at most capacity entries of the largest admitted size. */
  lemma MemoryBound(cfg: Config, store: map<Key, Bytes>, ops: seq<Op>)
    requires Limited(cfg) && forall i :: 0 <= i < |ops| ==> Honest(ops[i])
    ensures TotalBytes(Run(cfg, State([], store), ops).items) <= cfg.capacity * Largest(cfg)
    ensures TotalBytes(Run(cfg, State([], store), ops).items)
         <= Max(64 * cfg.maxEntry, 2 * cfg.maxTotal + cfg.maxTotal / (cfg.maxEntry / 2))
  {
    var items := Run(cfg, State([], store), ops).items;
    RunFits(cfg, store, ops);
    BytesBound(items, Largest(cfg));
    MulMono(|items|, cfg.capacity, Largest(cfg));
    CapacityBound(cfg);
  }

  /** The bound in terms of the settings. */
  lemma CapacityBound(cfg: Config)
    requires Limited(cfg)
    ensures cfg.capacity * Largest(cfg) <= Max(64 * cfg.maxEntry, 2 * cfg.maxTotal + cfg.maxTotal / (cfg.maxEntry / 2))
  {
    var t, e := cfg.maxTotal, cfg.maxEntry;
    var k := e / 2;
    var q := t / k;
    assert e <= 2 * k + 1 && q * k <= t;
    MulMono(Largest(cfg), e, cfg.capacity);
    if q >= 64 { QuotientTimes(t, e, k, q); }
  }

  lemma QuotientTimes(t: int, e: int, k: int, q: int)
    requires e <= 2 * k + 1 && q * k <= t && q >= 0
    ensures q * e <= 2 * t + q
  {
    MulMono(e, 2 * k + 1, q);
    assert q * (2 * k + 1) == 2 * (q * k) + q;
  }

  /** For an even maxEntry the remainder vanishes. */
  lemma MemoryBoundEven(cfg: Config, store: map<Key, Bytes>, ops: seq<Op>)
    requires Limited(cfg) && cfg.maxEntry % 2 == 0 && forall i :: 0 <= i < |ops| ==> Honest(ops[i])
    ensures TotalBytes(Run(cfg, State([], store), ops).items) <= Max(64 * cfg.maxEntry, 2 * cfg.maxTotal)
  {
    var items := Run(cfg, State([], store), ops).items;
    RunFits(cfg, store, ops);
    BytesBound(items, Largest(cfg));
    MulMono(|items|, cfg.capacity, Largest(cfg));
    EvenCapacityBound(cfg);
  }

  lemma EvenCapacityBound(cfg: Config)
    requires Limited(cfg) && cfg.maxEntry % 2 == 0
    ensures cfg.capacity * Largest(cfg) <= Max(64 * cfg.maxEntry, 2 * cfg.maxTotal)
  {
    var t, k := cfg.maxTotal, cfg.maxEntry / 2;
    var q := t / k;
    assert q * k <= t && cfg.maxEntry == 2 * k;
    MulMono(Largest(cfg), cfg.maxEntry, cfg.capacity);
    if q >= 64 { assert q * (2 * k) == 2 * (q * k); }
  }

  // ---- the bound is reached ----

  function Fill(n: nat): seq<bv8> { seq(n, _ => 0) }

  function NthKey(i: nat): Key { seq(i, _ => 'k') }

  /** The i-th of a run of Puts of distinct keys, each of the largest admitted size. */
  function LargePut(cfg: Config, i: nat): Op
    requires Limited(cfg)
  {
    Put(NthKey(i), Fill(Largest(cfg)), Largest(cfg), true, Accepted)
  }

  function LargePuts(cfg: Config, n: nat): seq<Op>
    requires Limited(cfg)
  {
    if n == 0 then [] else LargePuts(cfg, n - 1) + [LargePut(cfg, n - 1)]
  }

  /** One more Put of a key that is not cached, while there is room. */
  lemma LargePutAdds(cfg: Config, s: State, i: nat)
    requires Limited(cfg) && |s.items| < cfg.capacity && forall it :: it in s.items ==> it.key != NthKey(i)
    ensures
      var op := LargePut(cfg, i);
      Step(cfg, s, op).items == [Item(NthKey(i), Entry(op.data, op.size))] + s.items && |op.data| == Largest(cfg)
  {
    AbsentExactly(s.items, NthKey(i));
    WithoutAbsent(s.items, NthKey(i));
  }

  lemma {:induction false} LargePutsHonest(cfg: Config, n: nat)
    requires Limited(cfg)
    ensures forall i :: 0 <= i < |LargePuts(cfg, n)| ==> Honest(LargePuts(cfg, n)[i])
  {
    if n > 0 { LargePutsHonest(cfg, n - 1); }
  }

  /** The cache holds n entries of the largest admitted size, under the first n keys. */
  ghost predicate Filled(cfg: Config, items: seq<Item>, n: nat) {
    |items| == n && forall it :: it in items ==> |it.entry.data| == Largest(cfg) && |it.key| < n
  }

  lemma FillMore(cfg: Config, s: State, n: nat)
    requires Limited(cfg) && n < cfg.capacity && Filled(cfg, s.items, n)
    ensures Filled(cfg, Step(cfg, s, LargePut(cfg, n)).items, n + 1)
  {
    LargePutAdds(cfg, s, n);
  }

  lemma {:induction false} LargePutsFill(cfg: Config, store: map<Key, Bytes>, n: nat)
    requires Limited(cfg) && n <= cfg.capacity
    ensures Filled(cfg, Run(cfg, State([], store), LargePuts(cfg, n)).items, n)
  {
    if n > 0 {
      LargePutsFill(cfg, store, n - 1);
      var ops := LargePuts(cfg, n - 1);
      assert LargePuts(cfg, n)[..|ops|] == ops;
      FillMore(cfg, Run(cfg, State([], store), ops), n - 1);
    }
  }

  lemma {:induction false} BytesExact(items: seq<Item>, m: int)
    requires forall it :: it in items ==> |it.entry.data| == m
    ensures TotalBytes(items) == |items| * m
  {
    if items != [] {
      BytesExact(items[1..], m);
      assert |items| * m == (|items| - 1) * m + m;
    }
  }

  /** The bound of MemoryBound is reached, so it is exact. */
  lemma MemoryBoundReached(cfg: Config, store: map<Key, Bytes>) returns (ops: seq<Op>)
    requires Limited(cfg)
    ensures forall i :: 0 <= i < |ops| ==> Honest(ops[i])
    ensures TotalBytes(Run(cfg, State([], store), ops).items) == cfg.capacity * Largest(cfg)
  {
    ops := LargePuts(cfg, cfg.capacity);
    LargePutsHonest(cfg, cfg.capacity);
    LargePutsFill(cfg, store, cfg.capacity);
    BytesExact(Run(cfg, State([], store), ops).items, Largest(cfg));
  }

  /** Capacity entries of the largest size are always more than the budget. */
  lemma CapacityExceedsBudget(cfg: Config)
    requires Limited(cfg)
    ensures cfg.capacity * Largest(cfg) > cfg.maxTotal
  {
    var t, e := cfg.maxTotal, cfg.maxEntry;
    if e >= t {
      MulMono(64, cfg.capacity, t);
    } else {
      var k := e / 2;
      var q := t / k;
      assert t < (q + 1) * k;
      QuotientPositive(t, k);
      MulMono(q + 1, 2 * q, k);
      assert 2 * q * k == q * (2 * k);
      MulMono(2 * k, e, q);
      MulMono(q, cfg.capacity, e);
    }
  }

  /** The configured total is never a bound: whatever the settings, some run exceeds it. */
  lemma BudgetAlwaysExceeded(cfg: Config, store: map<Key, Bytes>) returns (ops: seq<Op>)
    requires Limited(cfg)
    ensures forall i :: 0 <= i < |ops| ==> Honest(ops[i])
    ensures TotalBytes(Run(cfg, State([], store), ops).items) > cfg.maxTotal
  {
    ops := MemoryBoundReached(cfg, store);
    CapacityExceedsBudget(cfg);
  }

  /** For an even maxEntry and a budget of many entries, the cache can hold exactly twice its budget. */
  lemma TwiceTheBudget(half: int, entries: int, store: map<Key, Bytes>) returns (ops: seq<Op>)
    requires half >= 1 && entries >= 64
    ensures
      var cfg := Config(entries * half, 2 * half, entries);
      && Limited(cfg)
      && (forall i :: 0 <= i < |ops| ==> Honest(ops[i]))
      && TotalBytes(Run(cfg, State([], store), ops).items) == 2 * cfg.maxTotal
  {
    var cfg := Config(entries * half, 2 * half, entries);
    MulMono(64, entries, half);
    Divides(entries, half);
    HalfBudget(half, entries);
    ops := MemoryBoundReached(cfg, store);
  }

  lemma HalfBudget(half: int, entries: int)
    requires half >= 1 && entries >= 64
    ensures Min(2 * half, entries * half) == 2 * half && entries * (2 * half) == 2 * (entries * half)
  {
    MulMono(2, entries, half);
  }
}
