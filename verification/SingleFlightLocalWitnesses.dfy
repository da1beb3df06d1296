/** Runs of the single-flight file store that show what can go wrong, one for each way. */
module SingleFlightLocalWitnesses {
  import opened Base
  import opened FileSystem
  import opened History
  import opened SingleFlightLocal
  import opened SingleFlightLocalProofs

  // ---- building runs ----

  /** Some run in which no Puts of one key overlap ends in s. */
  ghost predicate Reached(cfg: Config, s: State) {
    exists run :: Exec(cfg, Init(), run) == Some(s) && LoneRun(cfg, Init(), run)
  }

  lemma Start(cfg: Config) returns (s: State)
    ensures s == Init() && Reached(cfg, s)
  {
    s := Init();
    assert Exec(cfg, Init(), []) == Some(s) && LoneRun(cfg, Init(), []);
  }

  /** Extends a run under construction by one step. */
  lemma Step(cfg: Config, s: State, l: Label) returns (s': State)
    requires Reached(cfg, s) && Next(cfg, s, l).Some? && KeepsApart(s, l)
    ensures Some(s') == Next(cfg, s, l) && Reached(cfg, s')
  {
    var run :| Exec(cfg, Init(), run) == Some(s) && LoneRun(cfg, Init(), run);
    assert (run + [l])[..|run|] == run;
    s' := Next(cfg, s, l).value;
    assert Exec(cfg, Init(), run + [l]) == Some(s') && LoneRun(cfg, Init(), run + [l]);
  }

  /** A thread begins a call as the leader of a new flight, or outside the table. */
  lemma Begin(cfg: Config, s: State, t: nat, call: Call) returns (s': State)
    requires Reached(cfg, s) && s.At(t).Idle? && call.key in cfg.keys
    requires call.PutCall? || call.HeadCall? ==> FlightName(call) !in s.table.flights
    ensures Reached(cfg, s') && s'.fs == s.fs && s'.log == Then(s.log, Began(t, call))
    ensures
      var f := s.table.next;
      match call
      case GetCall(k) => s'.table == s.table && s'.threads == s.threads[t := Get(k, GetStarting)]
      case DeleteCall(k) => s'.table == s.table && s'.threads == s.threads[t := Delete(k, false)]
      case PutCall(k, b) =>
        && s'.table == s.table.(flights := s.table.flights[FlightName(call) := f], next := f + 1)
        && s'.threads == s.threads[t := Put(k, b, Some(f), Starting)]
      case HeadCall(k) =>
        && s'.table == s.table.(flights := s.table.flights[FlightName(call) := f], next := f + 1)
        && s'.threads == s.threads[t := Head(k, f, HeadStarting)]
  {
    s' := Step(cfg, s, Request(t, call));
  }

  /** A thread does the file act whose move is m. */
  lemma Acts(cfg: Config, s: State, t: nat, act: Act, m: Move) returns (s': State)
    requires Reached(cfg, s) && FileStep(cfg.path, s.fs, t, s.At(t), act) == Some(m)
    requires Admitted(cfg, s.threads, s.At(t), act) && KeepsApart(s, Do(t, act))
    ensures Reached(cfg, s') && s'.fs == m.fs && s'.table == s.table
    ensures s'.threads == s.threads[t := m.th] && s'.log == Extend(s.log, m.event)
  {
    s' := Step(cfg, s, Do(t, act));
  }

  /** Some run, in which no Puts of one key overlap, has a log that is not legal. */
  ghost predicate Misbehaves(cfg: Config) { exists s :: Reached(cfg, s) && !Legal(s.log) }

  // ---- an entry that is there without having been stored ----

  /** What stat reports of p. */
  function Reported(fs: Fs, p: Path, dirSize: nat): Option<nat> {
    if p in fs.dirs then Some(dirSize) else SizeOf(fs.Content(p))
  }

  /** A Head of k that finds a file or a directory which is not what the map has at k. */
  lemma HeadIsWrong(cfg: Config, s: State, t: nat, k: Key, dirSize: nat)
    requires Reached(cfg, s) && s.At(t).Idle? && k in cfg.keys && FlightName(HeadCall(k)) !in s.table.flights
    requires WriteFree(cfg, s.threads, cfg.shard(k)) && Reported(s.fs, cfg.path(k), dirSize).Some?
    requires Reported(s.fs, cfg.path(k), dirSize) != SizeOf(Lookup(MapOf(s.log), k))
    ensures Misbehaves(cfg)
  {
    var f, found := s.table.next, Reported(s.fs, cfg.path(k), dirSize);
    var s' := HeadLocks(cfg, s, t, k);
    s' := Acts(cfg, s', t, Stat(true, dirSize),
               Move(Head(k, f, HeadDone(HeadResult(found))), s.fs, Some(Statted(t, k, found))));
    assert !LegalNext(s'.log.before, s'.log.event);
  }

  lemma HeadLocks(cfg: Config, s: State, t: nat, k: Key) returns (s': State)
    requires Reached(cfg, s) && s.At(t).Idle? && k in cfg.keys && FlightName(HeadCall(k)) !in s.table.flights
    requires WriteFree(cfg, s.threads, cfg.shard(k))
    ensures Reached(cfg, s') && s'.fs == s.fs && MapOf(s'.log) == MapOf(s.log)
    ensures s'.At(t) == Head(k, s.table.next, HeadLocked)
  {
    s' := Begin(cfg, s, t, HeadCall(k));
    s' := Acts(cfg, s', t, ReadLock, Move(Head(k, s.table.next, HeadLocked), s.fs, None));
  }

  /** A Head's flight is not open while only Puts are under way. */
  predicate OnlyPuts(s: State) { forall n | n in s.table.flights :: n != "" && n[0] == 'p' }

  lemma NoHeadFlight(s: State, k: Key)
    requires OnlyPuts(s)
    ensures FlightName(HeadCall(k)) !in s.table.flights
  {
    assert FlightName(HeadCall(k))[0] == 'h';
  }

  /** A key whose file is the root is reported before anything is stored. */
  lemma RootIsSeen(cfg: Config, k: Key)
    requires k in cfg.keys && cfg.path(k) == []
    ensures Misbehaves(cfg)
  {
    var s := Start(cfg);
    HeadIsWrong(cfg, s, 0, k, 0);
  }

  // ---- a Put in an empty store ----

  /** The body of the Puts below. */
  const ONE: Bytes := [1]

  /** The empty store with the directories of p. */
  function DirsOf(p: Path): Fs
    requires p != []
  {
    Init().fs.MakeDirs(p[..|p| - 1])
  }

  lemma DirsOfAre(p: Path)
    requires p != []
    ensures forall q :: q in DirsOf(p).dirs <==> q < p
    ensures DirsOf(p).dir == map[] && DirsOf(p).data == map[] && DirsOf(p).next == 0
    ensures Init().fs.CanMakeDirs(p[..|p| - 1]) && p[..|p| - 1] < p
    ensures DirsOf(p).CanCreate(Tmp(p)) && p !in DirsOf(p).dirs
  {
    var d := p[..|p| - 1];
    MakeDirsOnly(Init().fs, d);
    forall q: Path ensures q in DirsOf(p).dirs <==> q < p {
      if q < p { assert q == p[..|q|] == d[..|q|]; }
    }
    forall i | 0 <= i < |Tmp(p)| ensures Tmp(p)[..i] in DirsOf(p).dirs {
      assert Tmp(p)[..i] == p[..i] && p[..i] < p;
    }
  }

  /** The store with one file, of content b, at q. */
  function OneFile(p: Path, q: Path, b: Bytes): Fs
    requires p != []
  {
    Fs(map[q := 0], map[0 := b], 1, DirsOf(p).dirs)
  }

  /** Thread t begins to put a body at k in the empty store, and has made the directories. */
  lemma PutMakesDirs(cfg: Config, s: State, t: nat, k: Key) returns (s': State)
    requires Reached(cfg, s) && s.At(t).Idle? && Alone(s.threads, t, k) && k in cfg.keys && cfg.path(k) != []
    requires FlightName(PutCall(k, ONE)) !in s.table.flights && s.fs == Init().fs
    ensures Reached(cfg, s') && s'.fs == DirsOf(cfg.path(k))
    ensures s'.threads == s.threads[t := Put(k, ONE, Some(s.table.next), Starting)]
    ensures s'.table == s.table.(
      flights := s.table.flights[FlightName(PutCall(k, ONE)) := s.table.next], next := s.table.next + 1)
    ensures s'.log == Then(s.log, Began(t, PutCall(k, ONE)))
  {
    var p := cfg.path(k);
    DirsOfAre(p);
    s' := Begin(cfg, s, t, PutCall(k, ONE));
    s' := Acts(cfg, s', t, MakeDirs(p[..|p| - 1]), Move(s'.At(t), DirsOf(p), None));
    assert s'.threads == s.threads[t := Put(k, ONE, Some(s.table.next), Starting)];
  }

  /** ... has created its tmp file */
  lemma PutCreates(cfg: Config, s: State, t: nat, k: Key) returns (s': State)
    requires Reached(cfg, s) && s.At(t).Idle? && Alone(s.threads, t, k) && k in cfg.keys && cfg.path(k) != []
    requires FlightName(PutCall(k, ONE)) !in s.table.flights && s.fs == Init().fs
    ensures Reached(cfg, s') && s'.fs == OneFile(cfg.path(k), Tmp(cfg.path(k)), [])
    ensures s'.threads == s.threads[t := Put(k, ONE, Some(s.table.next), Copying(0, 0))]
    ensures s'.table == s.table.(
      flights := s.table.flights[FlightName(PutCall(k, ONE)) := s.table.next], next := s.table.next + 1)
    ensures s'.log == Then(s.log, Began(t, PutCall(k, ONE)))
  {
    DirsOfAre(cfg.path(k));
    s' := PutMakesDirs(cfg, s, t, k);
    s' := Acts(cfg, s', t, CreateTmp(true),
               Move(Put(k, ONE, Some(s.table.next), Copying(0, 0)), OneFile(cfg.path(k), Tmp(cfg.path(k)), []), None));
  }

  /** ... has copied its body */
  lemma PutCopies(cfg: Config, s: State, t: nat, k: Key) returns (s': State)
    requires Reached(cfg, s) && t in s.threads && s.threads[t].Put? && s.threads[t].key == k
    requires s.threads[t].body == ONE && s.threads[t].put == Copying(0, 0) && 0 in s.fs.data && s.fs.data[0] == []
    ensures Reached(cfg, s') && s'.fs == s.fs.(data := s.fs.data[0 := ONE]) && s'.table == s.table && s'.log == s.log
    ensures s'.threads == s.threads[t := s.threads[t].(put := Copying(0, 1))]
  {
    var th := s.threads[t];
    assert Splice([], 0, ONE[0..1]) == ONE;
    s' := Acts(cfg, s, t, CopyChunk(1),
               Move(th.(put := Copying(0, 1)), s.fs.(data := s.fs.data[0 := ONE]), None));
  }

  /** ... has closed the file and taken the write lock */
  lemma PutLocks(cfg: Config, s: State, t: nat, k: Key) returns (s': State)
    requires Reached(cfg, s) && t in s.threads && s.threads[t].Put? && s.threads[t].key == k
    requires s.threads[t].body == ONE && s.threads[t].put == Copying(0, 0) && 0 in s.fs.data && s.fs.data[0] == []
    requires WriteFree(cfg, s.threads, cfg.shard(k)) && ReadFree(cfg, s.threads, cfg.shard(k))
    ensures Reached(cfg, s') && s'.fs == s.fs.(data := s.fs.data[0 := ONE]) && s'.table == s.table && s'.log == s.log
    ensures s'.threads == s.threads[t := s.threads[t].(put := Locked(0))]
  {
    var th := s.threads[t];
    s' := PutCopies(cfg, s, t, k);
    s' := Acts(cfg, s', t, CloseTmp(true), Move(th.(put := PutPc.Closed(0)), s'.fs, None));
    s' := Acts(cfg, s', t, WriteLock, Move(th.(put := Locked(0)), s'.fs, None));
  }

  /** A Put in the empty store is about to rename */
  lemma PutReachesRename(cfg: Config, s: State, t: nat, k: Key) returns (s': State)
    requires Reached(cfg, s) && s.At(t).Idle? && Alone(s.threads, t, k) && k in cfg.keys && cfg.path(k) != []
    requires FlightName(PutCall(k, ONE)) !in s.table.flights && s.fs == Init().fs
    requires WriteFree(cfg, s.threads, cfg.shard(k)) && ReadFree(cfg, s.threads, cfg.shard(k))
    ensures Reached(cfg, s') && s'.fs == OneFile(cfg.path(k), Tmp(cfg.path(k)), ONE)
    ensures s'.threads == s.threads[t := Put(k, ONE, Some(s.table.next), Locked(0))]
    ensures s'.table == s.table.(
      flights := s.table.flights[FlightName(PutCall(k, ONE)) := s.table.next], next := s.table.next + 1)
    ensures s'.log == Then(s.log, Began(t, PutCall(k, ONE)))
  {
    s' := PutCreates(cfg, s, t, k);
    s' := PutLocks(cfg, s', t, k);
    assert map[0 := []][0 := ONE] == map[0 := ONE];
  }

  /** ... and has renamed. */
  lemma PutRenames(cfg: Config, s: State, t: nat, k: Key) returns (s': State)
    requires Reached(cfg, s) && s.At(t).Idle? && Alone(s.threads, t, k) && k in cfg.keys && cfg.path(k) != []
    requires FlightName(PutCall(k, ONE)) !in s.table.flights && s.fs == Init().fs
    requires WriteFree(cfg, s.threads, cfg.shard(k)) && ReadFree(cfg, s.threads, cfg.shard(k))
    ensures Reached(cfg, s') && s'.fs == OneFile(cfg.path(k), cfg.path(k), ONE)
    ensures s'.threads == s.threads[t := Put(k, ONE, Some(s.table.next), PutDone(true))]
    ensures s'.table == s.table.(
      flights := s.table.flights[FlightName(PutCall(k, ONE)) := s.table.next], next := s.table.next + 1)
    ensures s'.log == Then(Then(s.log, Began(t, PutCall(k, ONE))), Stored(t, k, ONE))
  {
    s' := PutReachesRename(cfg, s, t, k);
    var m := Renaming(cfg, s'.fs, t, k, Some(s.table.next), ONE);
    s' := Acts(cfg, s', t, RenameTmp(true), m);
  }

  /** The move of a Put that renames the one tmp file, of content c. */
  lemma Renaming(cfg: Config, fs: Fs, t: nat, k: Key, via: Option<nat>, c: Bytes) returns (m: Move)
    requires cfg.path(k) != [] && fs == OneFile(cfg.path(k), Tmp(cfg.path(k)), c)
    ensures m == Move(Put(k, ONE, via, PutDone(true)), OneFile(cfg.path(k), cfg.path(k), c), Some(Stored(t, k, ONE)))
    ensures FileStep(cfg.path, fs, t, Put(k, ONE, via, Locked(0)), RenameTmp(true)) == Some(m)
  {
    var p := cfg.path(k);
    DirsOfAre(p);
    m := Move(Put(k, ONE, via, PutDone(true)), OneFile(p, p, c), Some(Stored(t, k, ONE)));
    assert fs.Rename(Tmp(p), p).dir == map[p := 0];
  }

  // ---- two keys that collide ----

  /** The directories of an entry below k are reported as an entry k. */
  lemma DirectoryIsSeen(cfg: Config, k: Key, below: Key)
    requires k in cfg.keys && below in cfg.keys && cfg.path(k) < cfg.path(below)
    ensures Misbehaves(cfg)
  {
    var s := Start(cfg);
    s := PutMakesDirs(cfg, s, 0, below);
    DirsOfAre(cfg.path(below));
    PutIsNoHead(PutCall(below, ONE), k);
    HeadIsWrong(cfg, s, 1, k, 0);
  }

  lemma PutIsNoHead(call: Call, k: Key)
    requires call.PutCall?
    ensures FlightName(call) != FlightName(HeadCall(k))
  {
    assert FlightName(call)[0] != FlightName(HeadCall(k))[0];
  }

  /** What is stored for one key is reported for another with the same file. */
  lemma AliasIsSeen(cfg: Config, j: Key, k: Key)
    requires j in cfg.keys && k in cfg.keys && j != k && cfg.path(j) == cfg.path(k) != []
    ensures Misbehaves(cfg)
  {
    var s := Start(cfg);
    s := PutRenames(cfg, s, 0, j);
    DirsOfAre(cfg.path(j));
    PutIsNoHead(PutCall(j, ONE), k);
    assert MapOf(s.log.before) == MapOf(s.log.before.before) == map[];
    HeadIsWrong(cfg, s, 1, k, 0);
  }

  /** The tmp file of a Put of k is reported as the entry whose file it is. */
  lemma TmpClashIsSeen(cfg: Config, k: Key, clash: Key)
    requires k in cfg.keys && clash in cfg.keys && cfg.path(k) != [] && cfg.path(clash) == Tmp(cfg.path(k))
    ensures Misbehaves(cfg)
  {
    var s := Start(cfg);
    s := PutCreates(cfg, s, 0, k);
    DirsOfAre(cfg.path(k));
    PutIsNoHead(PutCall(k, ONE), clash);
    HeadIsWrong(cfg, s, 1, clash, 0);
  }

  /**
    Cleanup removes the tmp file of a Put of k, an entry below that path makes it a directory, and the Put
    renames the directory: it succeeds, and a directory is reported as its entry.
   */
  lemma TmpDirectoryIsSeen(cfg: Config, k: Key, below: Key)
    requires k in cfg.keys && below in cfg.keys && cfg.path(k) != [] && Tmp(cfg.path(k)) < cfg.path(below)
    ensures Misbehaves(cfg)
  {
    var s := DirectoryAtTmp(cfg, k, below);
    s := DirectoryRenamed(cfg, s, k);
    NoHeadFlight(s, k);
    HeadIsWrong(cfg, s, 2, k, 0);
  }

  /** The tmp file of a Put of k that cleanup has removed. */
  lemma TmpEvicted(cfg: Config, k: Key) returns (s: State)
    requires k in cfg.keys && cfg.path(k) != []
    ensures Reached(cfg, s) && s.fs.dir == map[] && s.fs.dirs == DirsOf(cfg.path(k)).dirs && s.fs.data == map[0 := []]
    ensures s.threads == map[0 := Put(k, ONE, Some(0), Copying(0, 0))]
    ensures s.table == Table(map[FlightName(PutCall(k, ONE)) := 0], map[], 1)
  {
    var p := cfg.path(k);
    s := Start(cfg);
    s := PutCreates(cfg, s, 0, k);
    DirsOfAre(p);
    var entry := SomeEntry(cfg, Tmp(p));
    s := Step(cfg, s, Evict(Tmp(p), entry));
    assert s.fs.dir == map[];
  }

  lemma DirectoryAtTmp(cfg: Config, k: Key, below: Key) returns (s: State)
    requires k in cfg.keys && below in cfg.keys && cfg.path(k) != [] && Tmp(cfg.path(k)) < cfg.path(below)
    ensures Reached(cfg, s) && s.fs.dir == map[] && Tmp(cfg.path(k)) in s.fs.dirs && cfg.path(k) !in s.fs.dirs
    ensures s.fs.data == map[0 := []]
    ensures s.threads == map[0 := Put(k, ONE, Some(0), Copying(0, 0)), 1 := Put(below, ONE, Some(1), Starting)]
    ensures OnlyPuts(s)
  {
    var p, q := cfg.path(k), Tmp(cfg.path(k));
    s := TmpEvicted(cfg, k);
    DirsOfAre(p);
    FlightsDiffer(k, below);
    s := Begin(cfg, s, 1, PutCall(below, ONE));
    MakeDirsOnlyFits(s.fs, q);
    s := Acts(cfg, s, 1, MakeDirs(q), Move(s.At(1), s.fs.MakeDirs(q), None));
  }

  lemma MakeDirsOnlyFits(fs: Fs, d: Path)
    requires fs.dir == map[]
    ensures fs.CanMakeDirs(d) && forall q :: q in fs.MakeDirs(d).dirs <==> q in fs.dirs || q <= d
  {
    MakeDirsOnly(Fs(map[], map[], 0, fs.dirs), d);
  }

  lemma DirectoryRenamed(cfg: Config, s: State, k: Key) returns (s': State)
    requires Reached(cfg, s) && s.fs.dir == map[] && k in cfg.keys && cfg.path(k) != [] && OnlyPuts(s)
    requires Tmp(cfg.path(k)) in s.fs.dirs && cfg.path(k) !in s.fs.dirs
    requires 0 in s.threads && 1 in s.threads && s.threads.Keys == {0, 1} && s.fs.data == map[0 := []]
    requires s.threads[0] == Put(k, ONE, Some(0), Copying(0, 0))
    requires s.threads[1].Put? && s.threads[1].put == Starting
    ensures Reached(cfg, s') && OnlyPuts(s') && cfg.path(k) in s'.fs.dirs
    ensures k in MapOf(s'.log) && MapOf(s'.log)[k] == ONE
    ensures s'.At(2).Idle? && WriteFree(cfg, s'.threads, cfg.shard(k))
  {
    var p := cfg.path(k);
    s' := PutLocks(cfg, s, 0, k);
    var fs := s'.fs.Rename(Tmp(p), p);
    DirectoryMoves(s'.fs, Tmp(p), p);
    s' := Acts(cfg, s', 0, RenameTmp(true), Move(Put(k, ONE, Some(0), PutDone(true)), fs, Some(Stored(0, k, ONE))));
  }

  lemma DirectoryMoves(fs: Fs, d: Path, p: Path)
    requires fs.dir == map[] && d in fs.dirs && p !in fs.dirs
    ensures fs.CanRename(d, p) && p in fs.Rename(d, p).dirs
  {
    assert Moved(d, d, p) == p;
  }

  lemma SomeEntry(cfg: Config, p: Path) returns (entry: Option<Key>)
    ensures Names(cfg, p, entry)
  {
    if k :| k in cfg.keys && cfg.path(k) == p { entry := Some(k); } else { entry := None; }
  }

  lemma FlightsDiffer(j: Key, k: Key)
    requires j != k
    ensures FlightName(PutCall(j, ONE)) != FlightName(PutCall(k, ONE))
  {
    assert FlightName(PutCall(j, ONE))[4..] == j && FlightName(PutCall(k, ONE))[4..] == k;
  }

  // ---- a writer outside the flight table overlaps a Put ----

  /** Some run, in which Puts of one key may overlap, ends in s. */
  ghost predicate ReachedAnyhow(cfg: Config, s: State) { exists run :: Exec(cfg, Init(), run) == Some(s) }

  lemma StepAnyhow(cfg: Config, s: State, l: Label) returns (s': State)
    requires ReachedAnyhow(cfg, s) && Next(cfg, s, l).Some?
    ensures Some(s') == Next(cfg, s, l) && ReachedAnyhow(cfg, s')
  {
    var run :| Exec(cfg, Init(), run) == Some(s);
    assert (run + [l])[..|run|] == run;
    s' := Next(cfg, s, l).value;
    assert Exec(cfg, Init(), run + [l]) == Some(s');
  }

  lemma ActsAnyhow(cfg: Config, s: State, t: nat, act: Act, m: Move) returns (s': State)
    requires ReachedAnyhow(cfg, s) && FileStep(cfg.path, s.fs, t, s.At(t), act) == Some(m)
    requires Admitted(cfg, s.threads, s.At(t), act)
    ensures ReachedAnyhow(cfg, s') && s'.fs == m.fs && s'.table == s.table
    ensures s'.threads == s.threads[t := m.th] && s'.log == Extend(s.log, m.event)
  {
    s' := StepAnyhow(cfg, s, Do(t, act));
  }

  /** A Put is about to rename its tmp file when a backfill of the key begins */
  lemma BackfillBegins(cfg: Config, k: Key) returns (s: State)
    requires cfg.backfill && k in cfg.keys && cfg.path(k) != []
    ensures ReachedAnyhow(cfg, s) && MapOf(s.log) == map[]
    ensures s.fs == OneFile(cfg.path(k), Tmp(cfg.path(k)), ONE)
    ensures s.threads == map[0 := Put(k, ONE, Some(0), Locked(0)), 1 := Put(k, ONE, None, Starting)]
  {
    var s0 := Start(cfg);
    var s1 := PutReachesRename(cfg, s0, 0, k);
    assert MapOf(s1.log) == MapOf(s0.log) == map[];
    s := StepAnyhow(cfg, s1, Backfill(1, k, ONE));
    assert MapOf(s.log) == MapOf(s1.log);
  }

  /** ... and truncates it */
  lemma BackfillTruncates(cfg: Config, k: Key) returns (s: State)
    requires cfg.backfill && k in cfg.keys && cfg.path(k) != []
    ensures ReachedAnyhow(cfg, s) && MapOf(s.log) == map[]
    ensures s.fs == OneFile(cfg.path(k), Tmp(cfg.path(k)), [])
    ensures s.threads == map[0 := Put(k, ONE, Some(0), Locked(0)), 1 := Put(k, ONE, None, Copying(0, 0))]
  {
    var p := cfg.path(k);
    DirsOfAre(p);
    s := BackfillBegins(cfg, k);
    assert map[0 := ONE][0 := []] == map[0 := []];
    s := ActsAnyhow(cfg, s, 1, CreateTmp(true), Move(Put(k, ONE, None, Copying(0, 0)), OneFile(p, Tmp(p), []), None));
  }

  /** ... and the Put publishes it. */
  lemma TornIsPublished(cfg: Config, k: Key) returns (s: State)
    requires cfg.backfill && k in cfg.keys && cfg.path(k) != []
    ensures ReachedAnyhow(cfg, s) && MapOf(s.log) == map[k := ONE]
    ensures s.fs == OneFile(cfg.path(k), cfg.path(k), [])
    ensures s.threads == map[0 := Put(k, ONE, Some(0), PutDone(true)), 1 := Put(k, ONE, None, Copying(0, 0))]
  {
    s := BackfillTruncates(cfg, k);
    var m := Renaming(cfg, s.fs, 0, k, Some(0), []);
    s := ActsAnyhow(cfg, s, 0, RenameTmp(true), m);
  }

  /** A Get of k that opens an empty file although the map has another body. */
  lemma EmptyIsOpened(cfg: Config, s: State, t: nat, k: Key)
    requires ReachedAnyhow(cfg, s) && s.At(t).Idle? && k in cfg.keys && WriteFree(cfg, s.threads, cfg.shard(k))
    requires cfg.path(k) !in s.fs.dirs && cfg.path(k) in s.fs.dir && s.fs.dir[cfg.path(k)] == 0
    requires s.fs.Content(cfg.path(k)) == Some([]) && Lookup(MapOf(s.log), k) == Some(ONE)
    ensures exists s' :: ReachedAnyhow(cfg, s') && !Legal(s'.log)
  {
    var s' := StepAnyhow(cfg, s, Request(t, GetCall(k)));
    s' := ActsAnyhow(cfg, s', t, ReadLock, Move(Get(k, GetLocked), s.fs, None));
    assert MapOf(s'.log) == MapOf(s.log);
    s' := ActsAnyhow(cfg, s', t, Open(true), Move(Get(k, Opening(0, [])), s.fs, Some(Opened(t, k, Some([])))));
    assert !LegalNext(s'.log.before, s'.log.event);
  }

  /**
    A backfill shares the tmp inode of a Put of the same key: it truncates what the Put then publishes, so a
    reader sees an empty body although both carry the same one.
   */
  lemma TornBackfillIsSeen(cfg: Config, k: Key)
    requires cfg.backfill && k in cfg.keys && cfg.path(k) != []
    ensures !Atomic(cfg)
  {
    var s := TornIsPublished(cfg, k);
    DirsOfAre(cfg.path(k));
    EmptyIsOpened(cfg, s, 2, k);
  }
}
