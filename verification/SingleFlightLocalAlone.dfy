/**
  What a call does when it runs alone and the file system serves it: from any state that a run over separate keys
  reaches, it succeeds, with exactly the result that the map has for it. And only a failing file-system call, a copy
  error or a reader that gives up makes any call fail.
 */
module SingleFlightLocalAlone {
  import opened Base
  import opened FileSystem
  import opened History
  import opened SingleFlightLocal
  import opened SingleFlightLocalProofs

  // ---- running alone ----

  predicate IsOf(l: Label, t: nat) { !l.Evict? && l.t == t }

  /** Thread t alone, whose file-system calls all succeed, takes s to s'. */
  ghost predicate Solo(cfg: Config, s: State, t: nat, s': State) {
    exists run :: Exec(cfg, s, run) == Some(s') && forall i :: 0 <= i < |run| ==> IsOf(run[i], t) && Served(run[i])
  }

  /** No call of the label fails, and no reader gives up. */
  predicate Served(l: Label) {
    l.Do? ==>
      match l.act
      case CreateTmp(ok) => ok
      case CopyError => false
      case CloseTmp(ok) => ok
      case RenameTmp(ok) => ok
      case RemoveTmp(ok) => ok
      case Stat(ok, _) => ok
      case Open(ok) => ok
      case StatHandle(ok) => ok
      case Abandon => false
      case Unlink(ok) => ok
      case _ => true
  }

  /** A thread with no call under way and nobody in its way at k. */
  ghost predicate Ready(cfg: Config, s: State, t: nat, k: Key) {
    && Separate(cfg) && Inv(cfg, s) && s.At(t).Idle? && k in cfg.keys
    && WriteFree(cfg, s.threads, cfg.shard(k)) && ReadFree(cfg, s.threads, cfg.shard(k))
  }

  /** Runs over separate keys without overlapping Puts lead to such states. */
  lemma ReadyAfter(cfg: Config, run: seq<Label>, s: State, t: nat, k: Key)
    requires Separate(cfg) && Exec(cfg, Init(), run) == Some(s) && LoneRun(cfg, Init(), run)
    requires s.At(t).Idle? && k in cfg.keys
    requires WriteFree(cfg, s.threads, cfg.shard(k)) && ReadFree(cfg, s.threads, cfg.shard(k))
    ensures Ready(cfg, s, t, k)
  {
    RunKeeps(cfg, run, s);
  }

  lemma SoloStarts(cfg: Config, s: State, t: nat)
    ensures Solo(cfg, s, t, s)
  {
    assert Exec(cfg, s, []) == Some(s);
  }

  lemma SoloOn(cfg: Config, s: State, t: nat, mid: State, l: Label, s': State)
    requires Solo(cfg, s, t, mid) && Next(cfg, mid, l) == Some(s') && IsOf(l, t) && Served(l)
    ensures Solo(cfg, s, t, s')
  {
    var run :| Exec(cfg, s, run) == Some(mid) && forall i :: 0 <= i < |run| ==> IsOf(run[i], t) && Served(run[i]);
    assert (run + [l])[..|run|] == run;
    assert Exec(cfg, s, run + [l]) == Some(s');
  }

  /** The state s with thread t at th, the files fs, and the log. */
  function Mid(s: State, t: nat, fs: Fs, th: Thread, log: Log): State {
    s.(fs := fs, threads := s.threads[t := th], log := log)
  }

  /** Thread t does one more file act. */
  lemma Acts(cfg: Config, s0: State, s: State, t: nat, fs: Fs, th: Thread, log: Log, act: Act, m: Move)
    requires Solo(cfg, s0, t, Mid(s, t, fs, th, log)) && FileStep(cfg.path, fs, t, th, act) == Some(m)
    requires Admitted(cfg, s.threads[t := th], th, act) && Served(Do(t, act))
    ensures Solo(cfg, s0, t, Mid(s, t, m.fs, m.th, Extend(log, m.event)))
  {
    var mid, mid' := Mid(s, t, fs, th, log), Mid(s, t, m.fs, m.th, Extend(log, m.event));
    assert mid.threads[t := m.th] == s.threads[t := m.th];
    assert Next(cfg, mid, Do(t, act)) == Some(mid');
    SoloOn(cfg, s0, t, mid, Do(t, act), mid');
  }

  /** The locks are as free while the thread waits as they were. */
  lemma StillFree(cfg: Config, s: State, t: nat, th: Thread, shard: nat)
    requires WriteFree(cfg, s.threads, shard) && ReadFree(cfg, s.threads, shard)
    requires !HoldsWrite(cfg, th, shard) && !HoldsRead(cfg, th, shard)
    ensures WriteFree(cfg, s.threads[t := th], shard) && ReadFree(cfg, s.threads[t := th], shard)
  {
  }

  // ---- the files of separate keys ----

  /** The file of a key is no directory, no file is on the way to it, and it holds what the map does. */
  lemma EntryShown(cfg: Config, fs: Fs, threads: map<nat, Thread>, m: map<Key, Bytes>, k: Key)
    requires Separate(cfg) && FsInv(cfg, fs, threads) && Shows(cfg, fs, m) && k in cfg.keys
    ensures
      var p := cfg.path(k);
      && p !in fs.dirs && fs.Unblocked(p) && fs.Content(p) == Lookup(m, k)
      && (p in fs.dir <==> k in m) && (p in fs.dir ==> fs.dir[p] in fs.data)
  {
    var p := cfg.path(k);
    assert IsEntry(cfg, p) && ShowsAt(cfg, fs, m, k);
    KindsApart(cfg, p);
    forall i | 0 <= i < |p| ensures p[..i] !in fs.dir {
      assert p[..i] < p && IsAbove(cfg, p[..i]);
      KindsApart(cfg, p[..i]);
    }
  }

  // ---- Get ----

  /** A Get that has opened the file of its key, */
  lemma GetOpens(cfg: Config, s: State, t: nat, k: Key, m: Move)
    requires Ready(cfg, s, t, k) && GetStep(cfg.path, s.fs, t, Get(k, GetLocked), Open(true)) == Some(m)
    ensures Solo(cfg, s, t, Mid(s, t, m.fs, m.th, Extend(Then(s.log, Began(t, GetCall(k))), m.event)))
  {
    var log := Then(s.log, Began(t, GetCall(k)));
    SoloStarts(cfg, s, t);
    SoloOn(cfg, s, t, s, Request(t, GetCall(k)), Mid(s, t, s.fs, Get(k, GetStarting), log));
    StillFree(cfg, s, t, Get(k, GetStarting), cfg.shard(k));
    Acts(cfg, s, s, t, s.fs, Get(k, GetStarting), log, ReadLock, Move(Get(k, GetLocked), s.fs, None));
    Acts(cfg, s, s, t, s.fs, Get(k, GetLocked), log, Open(true), m);
  }

  /** ... read it to its end, and closed it. */
  lemma GetReads(cfg: Config, s: State, t: nat, k: Key, ino: nat, b: Bytes, log: Log)
    requires ino in s.fs.data && s.fs.data[ino] == b && Solo(cfg, s, t, Mid(s, t, s.fs, Get(k, Opening(ino, b)), log))
    ensures Solo(cfg, s, t, Mid(s, t, s.fs, Idle, Then(log, Delivered(t, k, b, |b|))))
  {
    Acts(cfg, s, s, t, s.fs, Get(k, Opening(ino, b)), log, StatHandle(true),
         Move(Get(k, Streaming(ino, |b|, [], b)), s.fs, None));
    if b != [] {
      assert [] + b[0..0 + |b|] == b;
      Acts(cfg, s, s, t, s.fs, Get(k, Streaming(ino, |b|, [], b)), log, ReadChunk(|b|),
           Move(Get(k, Streaming(ino, |b|, b, b)), s.fs, None));
    }
    Acts(cfg, s, s, t, s.fs, Get(k, Streaming(ino, |b|, b, b)), log, ReadEnd,
         Move(Idle, s.fs, Some(Delivered(t, k, b, |b|))));
  }

  /** A Get of a key that the map has delivers its whole body with its size. */
  lemma GetDelivers(cfg: Config, s: State, t: nat, k: Key, b: Bytes)
    requires Ready(cfg, s, t, k) && Lookup(MapOf(s.log), k) == Some(b)
    ensures exists s' ::
      && Solo(cfg, s, t, s') && s'.At(t).Idle? && s'.fs == s.fs
      && s'.log == Then(Then(Then(s.log, Began(t, GetCall(k))), Opened(t, k, Some(b))), Delivered(t, k, b, |b|))
  {
    EntryShown(cfg, s.fs, s.threads, MapOf(s.log), k);
    var ino := s.fs.dir[cfg.path(k)];
    var e := Opened(t, k, Some(b));
    GetOpens(cfg, s, t, k, Move(Get(k, Opening(ino, b)), s.fs, Some(e)));
    var log := Then(Then(s.log, Began(t, GetCall(k))), e);
    GetReads(cfg, s, t, k, ino, b, log);
    assert Mid(s, t, s.fs, Idle, Then(log, Delivered(t, k, b, |b|))).At(t).Idle?;
  }

  /** A Get of a key that the map has not reports a miss. */
  lemma GetMisses(cfg: Config, s: State, t: nat, k: Key)
    requires Ready(cfg, s, t, k) && k !in MapOf(s.log)
    ensures exists s' ::
      && Solo(cfg, s, t, s') && s'.At(t).Idle? && s'.fs == s.fs
      && s'.log == Then(Then(s.log, Began(t, GetCall(k))), Opened(t, k, None))
  {
    EntryShown(cfg, s.fs, s.threads, MapOf(s.log), k);
    GetOpens(cfg, s, t, k, Move(Idle, s.fs, Some(Opened(t, k, None))));
    var log := Then(Then(s.log, Began(t, GetCall(k))), Opened(t, k, None));
    assert Mid(s, t, s.fs, Idle, log).At(t).Idle?;
  }

  // ---- Delete ----

  lemma DeleteLocks(cfg: Config, s: State, t: nat, k: Key)
    requires Ready(cfg, s, t, k)
    ensures Solo(cfg, s, t, Mid(s, t, s.fs, Delete(k, true), Then(s.log, Began(t, DeleteCall(k)))))
  {
    var log := Then(s.log, Began(t, DeleteCall(k)));
    SoloStarts(cfg, s, t);
    SoloOn(cfg, s, t, s, Request(t, DeleteCall(k)), Mid(s, t, s.fs, Delete(k, false), log));
    StillFree(cfg, s, t, Delete(k, false), cfg.shard(k));
    Acts(cfg, s, s, t, s.fs, Delete(k, false), log, WriteLock, Move(Delete(k, true), s.fs, None));
  }

  /** A Delete removes its key, there or not. */
  lemma DeleteRemoves(cfg: Config, s: State, t: nat, k: Key)
    requires Ready(cfg, s, t, k)
    ensures exists s' ::
      && Solo(cfg, s, t, s') && s'.At(t).Idle? && s'.log == Then(Then(s.log, Began(t, DeleteCall(k))), Removed(t, k))
      && MapOf(s'.log) == MapOf(s.log) - {k} && s'.fs.Content(cfg.path(k)).None?
  {
    var log, fs := Then(s.log, Began(t, DeleteCall(k))), s.fs.Remove(cfg.path(k));
    EntryShown(cfg, s.fs, s.threads, MapOf(s.log), k);
    DeleteLocks(cfg, s, t, k);
    Acts(cfg, s, s, t, s.fs, Delete(k, true), log, Unlink(true), Move(Idle, fs, Some(Removed(t, k))));
    var s' := Mid(s, t, fs, Idle, Then(log, Removed(t, k)));
    assert MapOf(log) == MapOf(s.log);
    assert s'.At(t).Idle? && MapOf(s'.log) == MapOf(s.log) - {k};
  }

  // ---- cleanup ----

  /** The cleanup may remove the file of any key that the map has, at any moment. */
  lemma EvictRemoves(cfg: Config, s: State, k: Key)
    requires Separate(cfg) && Inv(cfg, s) && k in MapOf(s.log)
    ensures
      var s' := Next(cfg, s, Evict(cfg.path(k), Some(k)));
      && s'.Some? && s'.value.fs.Content(cfg.path(k)).None? && s'.value.log == Then(s.log, Evicted(k))
      && s'.value.threads == s.threads && s'.value.table == s.table
  {
    assert ShowsAt(cfg, s.fs, MapOf(s.log), k);
    EntryShown(cfg, s.fs, s.threads, MapOf(s.log), k);
  }

  // ---- Head and Put, each leading a flight ----

  /** The table when thread t leads a new flight of a call. */
  function Led(table: Table, call: Call): Table {
    table.(flights := table.flights[FlightName(call) := table.next], next := table.next + 1)
  }

  /** ... and when it has settled it. */
  function Over(table: Table, call: Call, r: Outcome): Table {
    Table(table.flights, table.results[table.next := (call.key, r)], table.next + 1)
  }

  lemma LeadBegins(cfg: Config, s: State, t: nat, call: Call, th: Thread)
    requires Ready(cfg, s, t, call.key) && FlightName(call) !in s.table.flights
    requires
      match call
      case PutCall(k, b) => th == Put(k, b, Some(s.table.next), Starting)
      case HeadCall(k) => th == Head(k, s.table.next, HeadStarting)
      case _ => false
    ensures
      var s1 := s.(table := Led(s.table, call));
      Next(cfg, s, Request(t, call)) == Some(Mid(s1, t, s.fs, th, Then(s.log, Began(t, call))))
  {
  }

  lemma LeadEnds(cfg: Config, s: State, t: nat, call: Call, fs: Fs, th: Thread, log: Log)
    requires LeaderFlight(th) == Some(s.table.next) && LeaderOutcome(th).Some? && LeaderCall(th) == call
    requires th.key == call.key && FlightName(call) !in s.table.flights
    ensures
      var s1 := s.(table := Led(s.table, call));
      var r := LeaderOutcome(th).value;
      Next(cfg, Mid(s1, t, fs, th, log), Settle(t))
        == Some(Mid(s.(table := Over(s.table, call, r)), t, fs, Idle, Then(log, Settled(t, s.table.next, call.key, r))))
  {
    var s1 := s.(table := Led(s.table, call));
    assert Led(s.table, call).flights - {FlightName(call)} == s.table.flights;
    assert s1.threads[t := th][t := Idle] == s1.threads[t := Idle];
  }

  /** The state when thread t, leading a new flight of the call, is at th. */
  function Leading(s: State, t: nat, call: Call, fs: Fs, th: Thread, log: Log): State {
    Mid(s.(table := Led(s.table, call)), t, fs, th, log)
  }

  /** A Head reports the size of what the map has, or that it has nothing. */
  lemma HeadReports(cfg: Config, s: State, t: nat, k: Key)
    requires Ready(cfg, s, t, k) && FlightName(HeadCall(k)) !in s.table.flights
    ensures
      var found := SizeOf(Lookup(MapOf(s.log), k));
      exists s' ::
        && Solo(cfg, s, t, s') && s'.At(t).Idle? && s'.fs == s.fs
        && s'.log == Then(Then(Then(s.log, Began(t, HeadCall(k))), Statted(t, k, found)),
                          Settled(t, s.table.next, k, HeadResult(found)))
  {
    var found, f := SizeOf(Lookup(MapOf(s.log), k)), s.table.next;
    var log := Then(Then(s.log, Began(t, HeadCall(k))), Statted(t, k, found));
    HeadStats(cfg, s, t, k);
    LeadEnds(cfg, s, t, HeadCall(k), s.fs, Head(k, f, HeadDone(HeadResult(found))), log);
    var s' := Mid(s.(table := Over(s.table, HeadCall(k), HeadResult(found))), t, s.fs, Idle,
                  Then(log, Settled(t, f, k, HeadResult(found))));
    SoloOn(cfg, s, t, Leading(s, t, HeadCall(k), s.fs, Head(k, f, HeadDone(HeadResult(found))), log), Settle(t), s');
    assert s'.At(t).Idle?;
  }

  lemma HeadStats(cfg: Config, s: State, t: nat, k: Key)
    requires Ready(cfg, s, t, k) && FlightName(HeadCall(k)) !in s.table.flights
    ensures
      var found := SizeOf(Lookup(MapOf(s.log), k));
      Solo(cfg, s, t, Leading(s, t, HeadCall(k), s.fs, Head(k, s.table.next, HeadDone(HeadResult(found))),
        Then(Then(s.log, Began(t, HeadCall(k))), Statted(t, k, found))))
  {
    var found, f := SizeOf(Lookup(MapOf(s.log), k)), s.table.next;
    var s1, log := s.(table := Led(s.table, HeadCall(k))), Then(s.log, Began(t, HeadCall(k)));
    EntryShown(cfg, s.fs, s.threads, MapOf(s.log), k);
    HeadLocks(cfg, s, t, k);
    Acts(cfg, s, s1, t, s.fs, Head(k, f, HeadLocked), log, Stat(true, 0),
         Move(Head(k, f, HeadDone(HeadResult(found))), s.fs, Some(Statted(t, k, found))));
  }

  lemma HeadLocks(cfg: Config, s: State, t: nat, k: Key)
    requires Ready(cfg, s, t, k) && FlightName(HeadCall(k)) !in s.table.flights
    ensures Solo(cfg, s, t, Leading(s, t, HeadCall(k), s.fs, Head(k, s.table.next, HeadLocked),
      Then(s.log, Began(t, HeadCall(k)))))
  {
    var f, s1, log := s.table.next, s.(table := Led(s.table, HeadCall(k))), Then(s.log, Began(t, HeadCall(k)));
    SoloStarts(cfg, s, t);
    LeadBegins(cfg, s, t, HeadCall(k), Head(k, f, HeadStarting));
    SoloOn(cfg, s, t, s, Request(t, HeadCall(k)), Mid(s1, t, s.fs, Head(k, f, HeadStarting), log));
    StillFree(cfg, s, t, Head(k, f, HeadStarting), cfg.shard(k));
    Acts(cfg, s, s1, t, s.fs, Head(k, f, HeadStarting), log, ReadLock, Move(Head(k, f, HeadLocked), s.fs, None));
  }

  // ---- Put ----

  /** The files as a Put of k leaves them step by step: with its directories, its tmp file of content c, and renamed. */
  function WithDirs(cfg: Config, fs: Fs, k: Key): Fs
    requires cfg.path(k) != []
  {
    fs.MakeDirs(cfg.path(k)[..|cfg.path(k)| - 1])
  }

  function WithTmp(cfg: Config, fs: Fs, k: Key, c: Bytes): Fs
    requires cfg.path(k) != []
  {
    var made, tmp := WithDirs(cfg, fs, k), Tmp(cfg.path(k));
    var created := made.Create(tmp);
    created.(data := created.data[made.CreatedInode(tmp) := c])
  }

  function WithEntry(cfg: Config, fs: Fs, k: Key, c: Bytes): Fs
    requires cfg.path(k) != [] && WithTmp(cfg, fs, k, c).CanRename(Tmp(cfg.path(k)), cfg.path(k))
  {
    WithTmp(cfg, fs, k, c).Rename(Tmp(cfg.path(k)), cfg.path(k))
  }

  /** Separate keys leave room for all of it. */
  lemma RoomForPut(cfg: Config, fs: Fs, threads: map<nat, Thread>, m: map<Key, Bytes>, k: Key)
    requires Separate(cfg) && FsInv(cfg, fs, threads) && Shows(cfg, fs, m) && k in cfg.keys
    ensures
      var p := cfg.path(k);
      && p != [] && p[..|p| - 1] < p && fs.CanMakeDirs(p[..|p| - 1]) && WithDirs(cfg, fs, k).Valid()
      && WithDirs(cfg, fs, k).CanCreate(Tmp(p)) && p !in WithDirs(cfg, fs, k).dirs && Tmp(p) != p
  {
    var p, d := cfg.path(k), cfg.path(k)[..|cfg.path(k)| - 1];
    assert IsEntry(cfg, p) && IsTmp(cfg, Tmp(p)) && IsAbove(cfg, d) && p != [];
    PathsApart(cfg, k, k);
    KindsApart(cfg, p);
    KindsApart(cfg, Tmp(p));
    KindsApart(cfg, d);
    EntryShown(cfg, fs, threads, m, k);
    forall i | 0 <= i < |d| ensures d[..i] !in fs.dir { assert d[..i] == p[..i]; }
    MakeDirsOnly(fs, d);
    forall i | 0 <= i < |Tmp(p)| ensures Tmp(p)[..i] in WithDirs(cfg, fs, k).dirs {
      assert Tmp(p)[..i] == p[..i] && p[..i] == d[..i] && p[..i] <= d;
    }
  }

  /** What the files show afterwards. */
  lemma PutShows(cfg: Config, fs: Fs, threads: map<nat, Thread>, m: map<Key, Bytes>, k: Key, b: Bytes)
    requires Separate(cfg) && FsInv(cfg, fs, threads) && Shows(cfg, fs, m) && k in cfg.keys
    ensures
      var p := cfg.path(k);
      && p != [] && WithTmp(cfg, fs, k, b).CanRename(Tmp(p), p)
      && WithEntry(cfg, fs, k, b).Content(p) == Some(b)
  {
    RoomForPut(cfg, fs, threads, m, k);
    CreateOnly(WithDirs(cfg, fs, k), Tmp(cfg.path(k)));
  }

  /** The thread of a Put of b at k that leads flight f. */
  function Putter(k: Key, b: Bytes, f: nat, pc: PutPc): Thread { Put(k, b, Some(f), pc) }

  lemma PutMakesDirs(cfg: Config, s: State, t: nat, k: Key, b: Bytes)
    requires Ready(cfg, s, t, k) && FlightName(PutCall(k, b)) !in s.table.flights && cfg.path(k) != []
    ensures Solo(cfg, s, t, Leading(s, t, PutCall(k, b), WithDirs(cfg, s.fs, k),
      Putter(k, b, s.table.next, Starting), Then(s.log, Began(t, PutCall(k, b)))))
  {
    var f, p := s.table.next, cfg.path(k);
    var s1, log := s.(table := Led(s.table, PutCall(k, b))), Then(s.log, Began(t, PutCall(k, b)));
    RoomForPut(cfg, s.fs, s.threads, MapOf(s.log), k);
    SoloStarts(cfg, s, t);
    LeadBegins(cfg, s, t, PutCall(k, b), Putter(k, b, f, Starting));
    SoloOn(cfg, s, t, s, Request(t, PutCall(k, b)), Mid(s1, t, s.fs, Putter(k, b, f, Starting), log));
    Acts(cfg, s, s1, t, s.fs, Putter(k, b, f, Starting), log, MakeDirs(p[..|p| - 1]),
         Move(Putter(k, b, f, Starting), WithDirs(cfg, s.fs, k), None));
  }

  lemma PutCreates(cfg: Config, s: State, t: nat, k: Key, b: Bytes)
    requires Ready(cfg, s, t, k) && FlightName(PutCall(k, b)) !in s.table.flights && cfg.path(k) != []
    ensures
      var ino := WithDirs(cfg, s.fs, k).CreatedInode(Tmp(cfg.path(k)));
      Solo(cfg, s, t, Leading(s, t, PutCall(k, b), WithTmp(cfg, s.fs, k, []),
        Putter(k, b, s.table.next, Copying(ino, 0)), Then(s.log, Began(t, PutCall(k, b)))))
  {
    var f, p := s.table.next, cfg.path(k);
    var s1, log := s.(table := Led(s.table, PutCall(k, b))), Then(s.log, Began(t, PutCall(k, b)));
    var made := WithDirs(cfg, s.fs, k);
    var ino := made.CreatedInode(Tmp(p));
    RoomForPut(cfg, s.fs, s.threads, MapOf(s.log), k);
    PutMakesDirs(cfg, s, t, k, b);
    Acts(cfg, s, s1, t, made, Putter(k, b, f, Starting), log, CreateTmp(true),
         Move(Putter(k, b, f, Copying(ino, 0)), made.Create(Tmp(p)), None));
    assert made.Create(Tmp(p)).data[ino := []] == made.Create(Tmp(p)).data;
  }

  lemma PutCopies(cfg: Config, s: State, t: nat, k: Key, b: Bytes)
    requires Ready(cfg, s, t, k) && FlightName(PutCall(k, b)) !in s.table.flights && cfg.path(k) != []
    ensures
      var ino := WithDirs(cfg, s.fs, k).CreatedInode(Tmp(cfg.path(k)));
      Solo(cfg, s, t, Leading(s, t, PutCall(k, b), WithTmp(cfg, s.fs, k, b),
        Putter(k, b, s.table.next, Copying(ino, |b|)), Then(s.log, Began(t, PutCall(k, b)))))
  {
    var f, ino := s.table.next, WithDirs(cfg, s.fs, k).CreatedInode(Tmp(cfg.path(k)));
    var s1, log := s.(table := Led(s.table, PutCall(k, b))), Then(s.log, Began(t, PutCall(k, b)));
    PutCreates(cfg, s, t, k, b);
    if b != [] {
      CopyMoves(cfg, s.fs, t, k, b, Some(f));
      Acts(cfg, s, s1, t, WithTmp(cfg, s.fs, k, []), Putter(k, b, f, Copying(ino, 0)), log, CopyChunk(|b|),
           Move(Putter(k, b, f, Copying(ino, |b|)), WithTmp(cfg, s.fs, k, b), None));
    }
  }

  lemma CopyMoves(cfg: Config, fs: Fs, t: nat, k: Key, b: Bytes, via: Option<nat>)
    requires cfg.path(k) != [] && b != []
    ensures
      var ino := WithDirs(cfg, fs, k).CreatedInode(Tmp(cfg.path(k)));
      PutStep(cfg.path, WithTmp(cfg, fs, k, []), t, Put(k, b, via, Copying(ino, 0)), CopyChunk(|b|))
        == Some(Move(Put(k, b, via, Copying(ino, |b|)), WithTmp(cfg, fs, k, b), None))
  {
    var ino := WithDirs(cfg, fs, k).CreatedInode(Tmp(cfg.path(k)));
    assert Splice([], 0, b[0..0 + |b|]) == b;
    assert WithTmp(cfg, fs, k, []).data[ino := b] == WithTmp(cfg, fs, k, b).data;
  }

  lemma PutCloses(cfg: Config, s: State, t: nat, k: Key, b: Bytes)
    requires Ready(cfg, s, t, k) && FlightName(PutCall(k, b)) !in s.table.flights && cfg.path(k) != []
    ensures
      var ino := WithDirs(cfg, s.fs, k).CreatedInode(Tmp(cfg.path(k)));
      Solo(cfg, s, t, Leading(s, t, PutCall(k, b), WithTmp(cfg, s.fs, k, b),
        Putter(k, b, s.table.next, PutPc.Closed(ino)), Then(s.log, Began(t, PutCall(k, b)))))
  {
    var f, ino := s.table.next, WithDirs(cfg, s.fs, k).CreatedInode(Tmp(cfg.path(k)));
    var s1, log := s.(table := Led(s.table, PutCall(k, b))), Then(s.log, Began(t, PutCall(k, b)));
    var fs := WithTmp(cfg, s.fs, k, b);
    PutCopies(cfg, s, t, k, b);
    CloseMoves(cfg, fs, t, k, b, Some(f), ino);
    Acts(cfg, s, s1, t, fs, Putter(k, b, f, Copying(ino, |b|)), log, CloseTmp(true),
         Move(Putter(k, b, f, PutPc.Closed(ino)), fs, None));
  }

  lemma CloseMoves(cfg: Config, fs: Fs, t: nat, k: Key, b: Bytes, via: Option<nat>, ino: nat)
    ensures PutStep(cfg.path, fs, t, Put(k, b, via, Copying(ino, |b|)), CloseTmp(true))
         == Some(Move(Put(k, b, via, PutPc.Closed(ino)), fs, None))
    ensures forall threads :: Admitted(cfg, threads, Put(k, b, via, Copying(ino, |b|)), CloseTmp(true))
  {
  }

  lemma PutLocks(cfg: Config, s: State, t: nat, k: Key, b: Bytes)
    requires Ready(cfg, s, t, k) && FlightName(PutCall(k, b)) !in s.table.flights && cfg.path(k) != []
    ensures
      var ino := WithDirs(cfg, s.fs, k).CreatedInode(Tmp(cfg.path(k)));
      Solo(cfg, s, t, Leading(s, t, PutCall(k, b), WithTmp(cfg, s.fs, k, b),
        Putter(k, b, s.table.next, Locked(ino)), Then(s.log, Began(t, PutCall(k, b)))))
  {
    var f, ino := s.table.next, WithDirs(cfg, s.fs, k).CreatedInode(Tmp(cfg.path(k)));
    var s1, log := s.(table := Led(s.table, PutCall(k, b))), Then(s.log, Began(t, PutCall(k, b)));
    var fs := WithTmp(cfg, s.fs, k, b);
    PutCloses(cfg, s, t, k, b);
    StillFree(cfg, s, t, Putter(k, b, f, PutPc.Closed(ino)), cfg.shard(k));
    Acts(cfg, s, s1, t, fs, Putter(k, b, f, PutPc.Closed(ino)), log, WriteLock,
         Move(Putter(k, b, f, Locked(ino)), fs, None));
  }

  lemma PutRenames(cfg: Config, s: State, t: nat, k: Key, b: Bytes)
    requires Ready(cfg, s, t, k) && FlightName(PutCall(k, b)) !in s.table.flights && cfg.path(k) != []
    requires WithTmp(cfg, s.fs, k, b).CanRename(Tmp(cfg.path(k)), cfg.path(k))
    ensures Solo(cfg, s, t, Leading(s, t, PutCall(k, b), WithEntry(cfg, s.fs, k, b),
      Putter(k, b, s.table.next, PutDone(true)), Then(Then(s.log, Began(t, PutCall(k, b))), Stored(t, k, b))))
  {
    var f, ino := s.table.next, WithDirs(cfg, s.fs, k).CreatedInode(Tmp(cfg.path(k)));
    var s1, log := s.(table := Led(s.table, PutCall(k, b))), Then(s.log, Began(t, PutCall(k, b)));
    var fs := WithTmp(cfg, s.fs, k, b);
    PutLocks(cfg, s, t, k, b);
    Acts(cfg, s, s1, t, fs, Putter(k, b, f, Locked(ino)), log, RenameTmp(true),
         Move(Putter(k, b, f, PutDone(true)), WithEntry(cfg, s.fs, k, b), Some(Stored(t, k, b))));
  }

  /** A Put stores its body, and its leader is told so. */
  lemma PutStores(cfg: Config, s: State, t: nat, k: Key, b: Bytes)
    requires Ready(cfg, s, t, k) && FlightName(PutCall(k, b)) !in s.table.flights
    ensures exists s' ::
      && Solo(cfg, s, t, s') && s'.At(t).Idle? && s'.fs.Content(cfg.path(k)) == Some(b)
      && s'.log == Then(Then(Then(s.log, Began(t, PutCall(k, b))), Stored(t, k, b)),
                        Settled(t, s.table.next, k, PutResult(true)))
  {
    var f, log := s.table.next, Then(Then(s.log, Began(t, PutCall(k, b))), Stored(t, k, b));
    PutShows(cfg, s.fs, s.threads, MapOf(s.log), k, b);
    var fs := WithEntry(cfg, s.fs, k, b);
    PutRenames(cfg, s, t, k, b);
    LeadEnds(cfg, s, t, PutCall(k, b), fs, Putter(k, b, f, PutDone(true)), log);
    var s' := Mid(s.(table := Over(s.table, PutCall(k, b), PutResult(true))), t, fs, Idle,
                  Then(log, Settled(t, f, k, PutResult(true))));
    SoloOn(cfg, s, t, Leading(s, t, PutCall(k, b), fs, Putter(k, b, f, PutDone(true)), log), Settle(t), s');
    assert s'.At(t).Idle?;
  }

  // ---- what makes a call fail ----

  /** The thread's call has failed, or is bound to. */
  predicate Fails(th: Thread) {
    || (th.Put? && (th.put.Aborting? || th.put == PutDone(false)))
    || (th.Head? && th.head == HeadDone(HeadError))
  }

  predicate LogsFailure(e: Option<Event>) { e.Some? && (e.value.GetFailed? || e.value.DeleteFailed?) }

  /** Over separate keys a call fails, or is bound to, only by a step that is not served. */
  lemma FailuresAreFaults(cfg: Config, s: State, t: nat, act: Act, m: Move)
    requires Separate(cfg) && Inv(cfg, s) && t in s.threads
    requires FileStep(cfg.path, s.fs, t, s.threads[t], act) == Some(m)
    requires (!Fails(s.threads[t]) && Fails(m.th)) || LogsFailure(m.event)
    ensures !Served(Do(t, act))
  {
    assert ThreadOk(cfg, s.fs, s.threads[t]);
    if s.threads[t].Get? { GetFailsByFault(cfg, s.fs, t, s.threads[t], act, m); }
    else if s.threads[t].Put? { PutFailsByFault(cfg, s.fs, t, s.threads[t], act, m); }
  }

  lemma GetFailsByFault(cfg: Config, fs: Fs, t: nat, th: Thread, act: Act, m: Move)
    requires th.Get? && ReaderOk(cfg, fs, th) && GetStep(cfg.path, fs, t, th, act) == Some(m)
    requires Fails(m.th) || LogsFailure(m.event)
    ensures !Served(Do(t, act))
  {
  }

  lemma PutFailsByFault(cfg: Config, fs: Fs, t: nat, th: Thread, act: Act, m: Move)
    requires th.Put? && PutStep(cfg.path, fs, t, th, act) == Some(m)
    requires (!Fails(th) && Fails(m.th)) || LogsFailure(m.event)
    ensures !Served(Do(t, act))
  {
  }
}
