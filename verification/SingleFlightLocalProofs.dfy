/** The single-flight file store is atomic: an invariant of every step, and its consequences for runs. */
module SingleFlightLocalProofs {
  import opened Base
  import opened FileSystem
  import opened History
  import opened SingleFlightLocal

  // ---- paths ----

  ghost predicate IsEntry(cfg: Config, p: Path) { exists k :: k in cfg.keys && cfg.path(k) == p }

  ghost predicate IsTmp(cfg: Config, p: Path) { exists k :: k in cfg.keys && Tmp(cfg.path(k)) == p }

  /** A directory on the way to an entry. */
  ghost predicate IsAbove(cfg: Config, d: Path) { d == [] || exists k :: k in cfg.keys && d < cfg.path(k) }

  lemma PathsApart(cfg: Config, j: Key, k: Key)
    requires Separate(cfg) && j in cfg.keys && k in cfg.keys
    ensures cfg.path(j) != [] && cfg.path(j) != Tmp(cfg.path(k))
    ensures cfg.path(j) == cfg.path(k) || Tmp(cfg.path(j)) == Tmp(cfg.path(k)) ==> j == k
    ensures !(cfg.path(j) < cfg.path(k)) && !(Tmp(cfg.path(j)) < cfg.path(k))
  {
    if j != k {
      assert !Collides(cfg.path(j), cfg.path(k)) && !Collides(cfg.path(k), cfg.path(j));
      if Tmp(cfg.path(j)) == Tmp(cfg.path(k)) { TmpInjective(cfg.path(j), cfg.path(k)); }
    }
  }

  /** Entries, temporary files and directories have different paths. */
  lemma KindsApart(cfg: Config, p: Path)
    requires Separate(cfg)
    ensures IsEntry(cfg, p) ==> !IsTmp(cfg, p) && !IsAbove(cfg, p)
    ensures IsTmp(cfg, p) ==> !IsAbove(cfg, p)
  {
    forall j, k | j in cfg.keys && k in cfg.keys
      ensures cfg.path(j) != [] && cfg.path(j) != Tmp(cfg.path(k))
      ensures !(cfg.path(j) < cfg.path(k)) && !(Tmp(cfg.path(j)) < cfg.path(k))
    {
      PathsApart(cfg, j, k);
    }
  }

  // ---- the file-system invariant ----

  /** The inode a Put is still writing or about to publish. */
  function WriterInode(th: Thread): Option<nat> {
    if th.Put? && th.put.Copying? then Some(th.put.ino)
    else if th.Put? && th.put.Closed? then Some(th.put.ino)
    else if th.Put? && th.put.Locked? then Some(th.put.ino)
    else None
  }

  /** The inode a Get has a handle on. */
  function ReaderInode(th: Thread): Option<nat> {
    if th.Get? && th.get.Opening? then Some(th.get.ino)
    else if th.Get? && th.get.Streaming? then Some(th.get.ino)
    else None
  }

  /** A writer's inode is private, linked at most at its own tmp path, and holds what it has copied. */
  ghost predicate WriterOk(cfg: Config, fs: Fs, th: Thread) {
    WriterInode(th).Some? ==>
      var ino, tmp := WriterInode(th).value, Tmp(cfg.path(th.key));
      && ino in fs.data
      && (tmp in fs.dir ==> fs.dir[tmp] == ino)
      && (forall p :: p in fs.dir && fs.dir[p] == ino ==> p == tmp)
      && (th.put.Copying? ==> th.put.off <= |th.body| && fs.data[ino] == th.body[..th.put.off])
      && (!th.put.Copying? ==> fs.data[ino] == th.body)
  }

  /** A reader's inode still holds what it held when it was opened. */
  ghost predicate ReaderOk(cfg: Config, fs: Fs, th: Thread) {
    ReaderInode(th).Some? ==>
      var ino := ReaderInode(th).value;
      && ino in fs.data
      && fs.data[ino] == th.get.seen
      && (forall p :: p in fs.dir && fs.dir[p] == ino ==> IsEntry(cfg, p))
      && (th.get.Streaming? ==> th.get.size == |th.get.seen| && th.get.got <= th.get.seen)
  }

  function KeyOf(th: Thread): Option<Key> {
    match th
    case Idle => None
    case Put(k, _, _, _) => Some(k)
    case Head(k, _, _) => Some(k)
    case Get(k, _) => Some(k)
    case Delete(k, _) => Some(k)
    case Waiting(call, _) => Some(call.key)
  }

  ghost predicate FsInv(cfg: Config, fs: Fs, threads: map<nat, Thread>) {
    && fs.Valid()
    && (forall p :: p in fs.dir ==> IsEntry(cfg, p) || IsTmp(cfg, p))
    && (forall d :: d in fs.dirs ==> IsAbove(cfg, d))
    && (forall t :: t in threads ==> ThreadOk(cfg, fs, threads[t]))
    && (forall t, u :: t in threads && u in threads && t != u ==> Apart(threads[t], threads[u]))
  }

  ghost predicate ThreadOk(cfg: Config, fs: Fs, th: Thread) {
    && (KeyOf(th).Some? ==> KeyOf(th).value in cfg.keys)
    && WriterOk(cfg, fs, th) && ReaderOk(cfg, fs, th)
  }

  /** What one thread writes, another neither writes nor reads. */
  ghost predicate Apart(th: Thread, other: Thread) {
    WriterInode(th).Some? ==> WriterInode(th) != WriterInode(other) && WriterInode(th) != ReaderInode(other)
  }

  // ---- the flight invariant ----

  /** A follower's flight is in the table under its name, or settled with its key and kind. */
  ghost predicate FollowerOk(table: Table, th: Thread) {
    th.Waiting? ==>
      && (th.call.PutCall? || th.call.HeadCall?)
      && th.flight < table.next
      && (if th.flight in table.results then
            && table.results[th.flight].0 == th.call.key
            && (th.call.PutCall? <==> table.results[th.flight].1.PutResult?)
          else
            FlightName(th.call) in table.flights && table.flights[FlightName(th.call)] == th.flight)
  }

  ghost predicate LeaderOk(cfg: Config, table: Table, th: Thread) {
    && (th.Put? && th.via.None? ==> cfg.backfill)
    && (th.Head? && th.head.HeadDone? ==> !th.head.outcome.PutResult?)
    && (LeaderFlight(th).Some? ==>
          && LeaderFlight(th).value !in table.results
          && FlightName(LeaderCall(th)) in table.flights
          && table.flights[FlightName(LeaderCall(th))] == LeaderFlight(th).value)
  }

  ghost predicate TableOk(table: Table) {
    && (forall n :: n in table.flights ==> table.flights[n] < table.next && table.flights[n] !in table.results)
    && (forall f :: f in table.results ==> f < table.next)
    && (forall m, n :: m in table.flights && n in table.flights && table.flights[m] == table.flights[n] ==> m == n)
  }

  ghost predicate FlightInv(cfg: Config, table: Table, threads: map<nat, Thread>) {
    && TableOk(table)
    && (forall t :: t in threads ==> LeaderOk(cfg, table, threads[t]) && FollowerOk(table, threads[t]))
    && (forall t, u :: t in threads && u in threads && t != u ==> OtherFlight(threads[t], threads[u]))
  }

  ghost predicate OtherFlight(th: Thread, other: Thread) {
    LeaderFlight(th).Some? ==> LeaderFlight(th) != LeaderFlight(other)
  }

  /** The two name spaces of the table never meet, and a name determines its key. */
  lemma FlightNamesApart(a: Call, b: Call)
    requires (a.PutCall? || a.HeadCall?) && (b.PutCall? || b.HeadCall?)
    requires FlightName(a) == FlightName(b)
    ensures a.key == b.key && (a.PutCall? <==> b.PutCall?)
  {
    assert FlightName(a)[0] == if a.PutCall? then 'p' else 'h';
    assert FlightName(b)[0] == if b.PutCall? then 'p' else 'h';
    var n := if a.PutCall? then 4 else 5;
    assert FlightName(a)[n..] == a.key;
    assert FlightName(b)[n..] == b.key;
  }

  // ---- the log invariant ----

  /** The latest event of a thread, given where the thread is. */
  ghost predicate LastOk(log: Log, t: nat, th: Thread) {
    match th
    case Idle => Quiet(log, t)
    case Put(k, b, _, pc) =>
      Last(log, t) == Some(if pc == PutDone(true) then Stored(t, k, b) else Began(t, PutCall(k, b)))
    case Head(k, _, pc) =>
      Last(log, t) == Some(if pc.HeadDone? && pc.outcome.HeadResult? then Statted(t, k, pc.outcome.found)
                           else Began(t, HeadCall(k)))
    case Get(k, pc) =>
      Last(log, t) == Some(if pc.Opening? then Opened(t, k, Some(pc.seen))
                           else if pc.Streaming? then Opened(t, k, Some(pc.seen))
                           else if pc.Directory? then OpenedDirectory(t, k)
                           else Began(t, GetCall(k)))
    case Delete(k, _) => Last(log, t) == Some(Began(t, DeleteCall(k)))
    case Waiting(call, f) => Last(log, t) == Some(Joined(t, f, call))
  }

  function ThreadAt(threads: map<nat, Thread>, t: nat): Thread { if t in threads then threads[t] else Idle }

  ghost predicate LogInv(table: Table, threads: map<nat, Thread>, log: Log) {
    && Legal(log)
    && (forall t: nat :: LastOk(log, t, ThreadAt(threads, t)))
    && (forall f: nat :: SettledAs(log, f) == if f in table.results then Some(table.results[f]) else None)
  }

  ghost predicate Inv(cfg: Config, s: State) {
    && FsInv(cfg, s.fs, s.threads)
    && FlightInv(cfg, s.table, s.threads)
    && LogInv(s.table, s.threads, s.log)
    && Shows(cfg, s.fs, MapOf(s.log))
  }

  /** The file of each key holds what the map holds at that key, and the map holds nothing else. */
  ghost predicate Shows(cfg: Config, fs: Fs, m: map<Key, Bytes>) { forall k :: ShowsAt(cfg, fs, m, k) }

  ghost predicate ShowsAt(cfg: Config, fs: Fs, m: map<Key, Bytes>, k: Key) {
    if k in cfg.keys then fs.Content(cfg.path(k)) == Lookup(m, k) else k !in m
  }

  // ---- the files, step by step ----

  /** Without bypassing writers at most one Put of a key is under way. */
  lemma OneWriterPerKey(cfg: Config, table: Table, threads: map<nat, Thread>, t: nat, u: nat)
    requires !cfg.backfill && FlightInv(cfg, table, threads)
    requires t in threads && u in threads && threads[t].Put? && threads[u].Put? && threads[t].key == threads[u].key
    ensures t == u
  {
    assert LeaderOk(cfg, table, threads[t]) && LeaderOk(cfg, table, threads[u]);
    assert FlightName(LeaderCall(threads[t])) == FlightName(LeaderCall(threads[u]));
    assert t != u ==> OtherFlight(threads[t], threads[u]);
  }

  /** A thread may move when its own claims hold in the new files and everybody else's are kept. */
  lemma FsMove(cfg: Config, fs: Fs, threads: map<nat, Thread>, t: nat, th: Thread, fs': Fs)
    requires FsInv(cfg, fs, threads)
    requires fs'.Valid() && (forall p :: p in fs'.dir ==> IsEntry(cfg, p) || IsTmp(cfg, p))
    requires forall d :: d in fs'.dirs ==> IsAbove(cfg, d)
    requires ThreadOk(cfg, fs', th)
    requires forall u :: u in threads && u != t ==>
      ThreadOk(cfg, fs', threads[u]) && Apart(th, threads[u]) && Apart(threads[u], th)
    ensures FsInv(cfg, fs', threads[t := th])
  {
  }

  /** The inode behind a Put's tmp path is nobody else's. */
  lemma TmpInodeUnused(cfg: Config, s: State, t: nat, u: nat)
    requires Separate(cfg) && FsInv(cfg, s.fs, s.threads)
    requires t in s.threads && s.threads[t].Put? && u in s.threads && u != t && Alone(s.threads, t, s.threads[t].key)
    ensures
      var tmp := Tmp(cfg.path(s.threads[t].key));
      && WriterInode(s.threads[u]) != Some(s.fs.CreatedInode(tmp))
      && ReaderInode(s.threads[u]) != Some(s.fs.CreatedInode(tmp))
      && (Writing(s.threads[u]) ==> Tmp(cfg.path(s.threads[u].key)) != tmp)
  {
    assert ThreadOk(cfg, s.fs, s.threads[u]) && ThreadOk(cfg, s.fs, s.threads[t]);
    KindsApart(cfg, Tmp(cfg.path(s.threads[t].key)));
    if Writing(s.threads[u]) { PathsApart(cfg, s.threads[t].key, s.threads[u].key); }
  }

  /** Where a Put goes by creating its tmp file. */
  function Creating(cfg: Config, fs: Fs, th: Thread): Thread
    requires th.Put?
  {
    th.(put := Copying(fs.CreatedInode(Tmp(cfg.path(th.key))), 0))
  }

  /** Creating the tmp file leaves the claims of every other thread alone. */
  lemma CreateSpares(cfg: Config, s: State, t: nat, u: nat)
    requires Separate(cfg) && FsInv(cfg, s.fs, s.threads)
    requires t in s.threads && s.threads[t].Put? && u in s.threads && u != t && Alone(s.threads, t, s.threads[t].key)
    ensures
      var th := s.threads[t];
      && ThreadOk(cfg, s.fs.Create(Tmp(cfg.path(th.key))), s.threads[u])
      && Apart(Creating(cfg, s.fs, th), s.threads[u]) && Apart(s.threads[u], Creating(cfg, s.fs, th))
  {
    TmpInodeUnused(cfg, s, t, u);
    assert ThreadOk(cfg, s.fs, s.threads[u]);
    KindsApart(cfg, Tmp(cfg.path(s.threads[t].key)));
  }

  /** A change of the files that spares every entry. */
  lemma SameEntries(cfg: Config, fs: Fs, fs': Fs, m: map<Key, Bytes>)
    requires Shows(cfg, fs, m)
    requires forall q: Path :: IsEntry(cfg, q) ==> fs'.Content(q) == fs.Content(q)
    ensures Shows(cfg, fs', m)
  {
    forall k ensures ShowsAt(cfg, fs', m, k) {
      assert ShowsAt(cfg, fs, m, k);
      assert k in cfg.keys ==> IsEntry(cfg, cfg.path(k));
    }
  }

  /** Creating the tmp file gives the Put a private, empty inode and changes no entry. */
  lemma FsCreate(cfg: Config, s: State, t: nat, m: map<Key, Bytes>)
    requires Separate(cfg) && FsInv(cfg, s.fs, s.threads) && Shows(cfg, s.fs, m)
    requires t in s.threads && s.threads[t].Put? && Alone(s.threads, t, s.threads[t].key)
    ensures
      var th := s.threads[t];
      var fs' := s.fs.Create(Tmp(cfg.path(th.key)));
      FsInv(cfg, fs', s.threads[t := Creating(cfg, s.fs, th)]) && Shows(cfg, fs', m)
  {
    var th := s.threads[t];
    var tmp := Tmp(cfg.path(th.key));
    assert ThreadOk(cfg, s.fs, th) && IsTmp(cfg, tmp);
    KindsApart(cfg, tmp);
    CreateOnly(s.fs, tmp);
    SameEntries(cfg, s.fs, s.fs.Create(tmp), m);
    forall u | u in s.threads && u != t
      ensures ThreadOk(cfg, s.fs.Create(tmp), s.threads[u])
      ensures Apart(Creating(cfg, s.fs, th), s.threads[u]) && Apart(s.threads[u], Creating(cfg, s.fs, th))
    {
      CreateSpares(cfg, s, t, u);
    }
    CreateClaims(cfg, s.fs, th);
    FsMove(cfg, s.fs, s.threads, t, Creating(cfg, s.fs, th), s.fs.Create(tmp));
  }

  lemma CreateClaims(cfg: Config, fs: Fs, th: Thread)
    requires th.Put? && fs.Valid() && th.key in cfg.keys && Tmp(cfg.path(th.key)) !in fs.dirs
    ensures ThreadOk(cfg, fs.Create(Tmp(cfg.path(th.key))), Creating(cfg, fs, th))
  {
    CreateOnly(fs, Tmp(cfg.path(th.key)));
  }

  /** Making directories on the way to an entry disturbs nobody and changes no entry. */
  lemma FsMakeDirs(cfg: Config, s: State, t: nat, d: Path, m: map<Key, Bytes>)
    requires Separate(cfg) && FsInv(cfg, s.fs, s.threads) && Shows(cfg, s.fs, m)
    requires t in s.threads && s.threads[t].Put? && d < cfg.path(s.threads[t].key) && s.fs.CanMakeDirs(d)
    ensures FsInv(cfg, s.fs.MakeDirs(d), s.threads) && Shows(cfg, s.fs.MakeDirs(d), m)
  {
    var fs' := s.fs.MakeDirs(d);
    MakeDirsOnly(s.fs, d);
    SameEntries(cfg, s.fs, fs', m);
    assert ThreadOk(cfg, s.fs, s.threads[t]);
    forall q | q in fs'.dirs ensures IsAbove(cfg, q) {
      if q <= d { assert q < cfg.path(s.threads[t].key); }
    }
    forall u | u in s.threads ensures ThreadOk(cfg, fs', s.threads[u]) {
      assert ThreadOk(cfg, s.fs, s.threads[u]);
    }
  }

  /** A chunk extends the Put's own inode and changes no entry. */
  lemma FsChunk(cfg: Config, s: State, t: nat, n: nat, m: map<Key, Bytes>)
    requires Separate(cfg) && FsInv(cfg, s.fs, s.threads) && Shows(cfg, s.fs, m)
    requires t in s.threads && s.threads[t].Put? && s.threads[t].put.Copying?
    requires s.threads[t].put.off + n <= |s.threads[t].body|
    ensures s.threads[t].put.ino in s.fs.data
    ensures
      var th := s.threads[t];
      var fs' := s.fs.WriteAt(th.put.ino, th.put.off, th.body[th.put.off..th.put.off + n]);
      FsInv(cfg, fs', s.threads[t := th.(put := Copying(th.put.ino, th.put.off + n))]) && Shows(cfg, fs', m)
  {
    var th := s.threads[t];
    assert ThreadOk(cfg, s.fs, th);
    var off := th.put.off;
    assert Splice(th.body[..off], off, th.body[off..off + n]) == th.body[..off + n];
    var fs' := s.fs.WriteAt(th.put.ino, off, th.body[off..off + n]);
    var th' := th.(put := Copying(th.put.ino, off + n));
    forall u | u in s.threads && u != t
      ensures ThreadOk(cfg, fs', s.threads[u]) && Apart(th', s.threads[u]) && Apart(s.threads[u], th')
    {
      assert ThreadOk(cfg, s.fs, s.threads[u]) && Apart(th, s.threads[u]) && Apart(s.threads[u], th);
    }
    assert ThreadOk(cfg, fs', th');
    FsMove(cfg, s.fs, s.threads, t, th', fs');
    KindsApart(cfg, Tmp(cfg.path(th.key)));
    assert IsTmp(cfg, Tmp(cfg.path(th.key)));
    SameEntries(cfg, s.fs, fs', m);
  }

  /** The rename publishes the whole body at the key, and nothing else. */
  lemma FsRename(cfg: Config, s: State, t: nat, m: map<Key, Bytes>)
    requires Separate(cfg) && FsInv(cfg, s.fs, s.threads) && Shows(cfg, s.fs, m)
    requires t in s.threads && s.threads[t].Put? && s.threads[t].put.Locked?
    requires s.fs.CanRename(Tmp(cfg.path(s.threads[t].key)), cfg.path(s.threads[t].key))
    ensures
      var th := s.threads[t];
      var fs' := s.fs.Rename(Tmp(cfg.path(th.key)), cfg.path(th.key));
      FsInv(cfg, fs', s.threads[t := th.(put := PutDone(true))]) && Shows(cfg, fs', m[th.key := th.body])
  {
    var th := s.threads[t];
    var p := cfg.path(th.key);
    TmpIsFile(cfg, s, t);
    RenameOnly(s.fs, Tmp(p), p);
    RenameInv(cfg, s, t);
    RenameShows(cfg, s.fs, th, s.fs.Rename(Tmp(p), p), m);
  }

  /** What a Put that may rename renames is its own file. */
  lemma TmpIsFile(cfg: Config, s: State, t: nat)
    requires Separate(cfg) && FsInv(cfg, s.fs, s.threads) && t in s.threads && s.threads[t].Put?
    requires s.threads[t].put.Locked? && s.fs.CanRename(Tmp(cfg.path(s.threads[t].key)), cfg.path(s.threads[t].key))
    ensures
      var th := s.threads[t];
      var p := cfg.path(th.key);
      && th.key in cfg.keys && p != Tmp(p) && IsEntry(cfg, p) && p !in s.fs.dirs
      && Tmp(p) in s.fs.dir && s.fs.data[s.fs.dir[Tmp(p)]] == th.body
  {
    var th := s.threads[t];
    var p := cfg.path(th.key);
    assert ThreadOk(cfg, s.fs, th) && IsTmp(cfg, Tmp(p)) && IsEntry(cfg, p);
    KindsApart(cfg, Tmp(p));
    PathsApart(cfg, th.key, th.key);
  }

  lemma RenameInv(cfg: Config, s: State, t: nat)
    requires Separate(cfg) && FsInv(cfg, s.fs, s.threads) && t in s.threads && s.threads[t].Put?
    requires s.threads[t].put.Locked? && s.fs.CanRename(Tmp(cfg.path(s.threads[t].key)), cfg.path(s.threads[t].key))
    ensures
      var th := s.threads[t];
      FsInv(cfg, s.fs.Rename(Tmp(cfg.path(th.key)), cfg.path(th.key)), s.threads[t := th.(put := PutDone(true))])
  {
    var th := s.threads[t];
    var p := cfg.path(th.key);
    RenameKinds(cfg, s, t);
    forall u | u in s.threads && u != t ensures ThreadOk(cfg, s.fs.Rename(Tmp(p), p), s.threads[u]) {
      RenameSpares(cfg, s, t, u);
    }
    FsEnds(cfg, s.fs, s.threads, t, true, s.fs.Rename(Tmp(p), p));
  }

  /** A Put may end when everybody else's claims are kept: it makes none any more. */
  lemma FsEnds(cfg: Config, fs: Fs, threads: map<nat, Thread>, t: nat, ok: bool, fs': Fs)
    requires FsInv(cfg, fs, threads) && t in threads && threads[t].Put? && threads[t].key in cfg.keys
    requires fs'.Valid() && (forall p :: p in fs'.dir ==> IsEntry(cfg, p) || IsTmp(cfg, p)) && fs'.dirs == fs.dirs
    requires forall u :: u in threads && u != t ==> ThreadOk(cfg, fs', threads[u])
    ensures FsInv(cfg, fs', threads[t := threads[t].(put := PutDone(ok))])
  {
    FsMove(cfg, fs, threads, t, threads[t].(put := PutDone(ok)), fs');
  }

  /** After the rename there are still only entries, tmp files and the directories above. */
  lemma RenameKinds(cfg: Config, s: State, t: nat)
    requires Separate(cfg) && FsInv(cfg, s.fs, s.threads) && t in s.threads && s.threads[t].Put?
    requires s.threads[t].put.Locked? && s.fs.CanRename(Tmp(cfg.path(s.threads[t].key)), cfg.path(s.threads[t].key))
    ensures
      var p := cfg.path(s.threads[t].key);
      var fs' := s.fs.Rename(Tmp(p), p);
      && Tmp(p) in s.fs.dir && p !in s.fs.dirs && s.threads[t].key in cfg.keys
      && fs'.Valid() && fs'.dirs == s.fs.dirs && forall q :: q in fs'.dir ==> IsEntry(cfg, q) || IsTmp(cfg, q)
  {
    var p := cfg.path(s.threads[t].key);
    TmpIsFile(cfg, s, t);
    RenameOnly(s.fs, Tmp(p), p);
    assert forall q :: q in s.fs.Rename(Tmp(p), p).dir ==> q == p || q in s.fs.dir;
  }

  lemma RenameSpares(cfg: Config, s: State, t: nat, u: nat)
    requires Separate(cfg) && FsInv(cfg, s.fs, s.threads)
    requires t in s.threads && s.threads[t].Put? && s.threads[t].put.Locked? && u in s.threads && u != t
    requires Tmp(cfg.path(s.threads[t].key)) in s.fs.dir && cfg.path(s.threads[t].key) !in s.fs.dirs
    ensures
      var p := cfg.path(s.threads[t].key);
      ThreadOk(cfg, s.fs.Rename(Tmp(p), p), s.threads[u])
  {
    var th, other := s.threads[t], s.threads[u];
    assert ThreadOk(cfg, s.fs, th) && ThreadOk(cfg, s.fs, other) && Apart(th, other);
    assert IsEntry(cfg, cfg.path(th.key));
    if other.Put? { PathsApart(cfg, th.key, other.key); }
  }

  lemma RenameShows(cfg: Config, fs: Fs, th: Thread, fs': Fs, m: map<Key, Bytes>)
    requires Separate(cfg) && th.Put? && th.key in cfg.keys && Shows(cfg, fs, m)
    requires
      var p := cfg.path(th.key);
      forall q: Path ::
        fs'.Content(q) == if q == p then Some(th.body) else if q == Tmp(p) then None else fs.Content(q)
    ensures Shows(cfg, fs', m[th.key := th.body])
  {
    var m' := m[th.key := th.body];
    forall j ensures ShowsAt(cfg, fs', m', j) {
      assert ShowsAt(cfg, fs, m, j);
      if j in cfg.keys { PathsApart(cfg, j, th.key); }
    }
  }

  /** Removing any file disturbs no writer and no reader. */
  lemma FsRemove(cfg: Config, fs: Fs, threads: map<nat, Thread>, p: Path)
    requires FsInv(cfg, fs, threads)
    ensures FsInv(cfg, fs.Remove(p), threads)
  {
    forall t | t in threads ensures ThreadOk(cfg, fs.Remove(p), threads[t]) {
      assert ThreadOk(cfg, fs, threads[t]);
    }
  }

  /** Removing the file of an entry removes that entry alone; removing any other changes no entry. */
  lemma RemoveShows(cfg: Config, fs: Fs, p: Path, entry: Option<Key>, m: map<Key, Bytes>)
    requires Separate(cfg) && Names(cfg, p, entry) && Shows(cfg, fs, m)
    ensures Shows(cfg, fs.Remove(p), m - (if entry.Some? then {entry.value} else {}))
  {
    var m' := m - (if entry.Some? then {entry.value} else {});
    forall j ensures ShowsAt(cfg, fs.Remove(p), m', j) {
      assert ShowsAt(cfg, fs, m, j);
      if entry.Some? && j in cfg.keys { PathsApart(cfg, j, entry.value); }
    }
  }

  /** The acts that neither create, write, rename nor remove. */
  predicate Harmless(act: Act) {
    match act
    case CreateTmp(ok) => !ok
    case RenameTmp(ok) => !ok
    case RemoveTmp(ok) => !ok
    case Unlink(ok) => !ok
    case CopyChunk(_) => false
    case MakeDirs(_) => false
    case _ => true
  }

  /** A harmless act leaves the files alone and claims no inode but one it just opened at a key. */
  lemma HarmlessStep(cfg: Config, fs: Fs, t: nat, th: Thread, act: Act, m: Move)
    requires fs.Valid() && ThreadOk(cfg, fs, th) && Harmless(act) && FileStep(cfg.path, fs, t, th, act) == Some(m)
    ensures m.fs == fs && ThreadOk(cfg, fs, m.th)
    ensures WriterInode(m.th).Some? ==> WriterInode(m.th) == WriterInode(th)
    ensures ReaderInode(m.th).Some? ==>
      ReaderInode(m.th) == ReaderInode(th)
      || (th.Get? && cfg.path(th.key) in fs.dir && Some(fs.dir[cfg.path(th.key)]) == ReaderInode(m.th))
  {
    if th.Put? { HarmlessPut(cfg, fs, t, th, act, m); }
    else if th.Get? { HarmlessGet(cfg, fs, t, th, act, m); }
  }

  lemma HarmlessPut(cfg: Config, fs: Fs, t: nat, th: Thread, act: Act, m: Move)
    requires th.Put? && ThreadOk(cfg, fs, th) && Harmless(act) && PutStep(cfg.path, fs, t, th, act) == Some(m)
    ensures m.fs == fs && ThreadOk(cfg, fs, m.th) && ReaderInode(m.th).None?
    ensures WriterInode(m.th).Some? ==> WriterInode(m.th) == WriterInode(th)
  {
  }

  lemma HarmlessGet(cfg: Config, fs: Fs, t: nat, th: Thread, act: Act, m: Move)
    requires th.Get? && fs.Valid() && ThreadOk(cfg, fs, th) && GetStep(cfg.path, fs, t, th, act) == Some(m)
    ensures m.fs == fs && ThreadOk(cfg, fs, m.th) && WriterInode(m.th).None?
    ensures ReaderInode(m.th).Some? ==>
      ReaderInode(m.th) == ReaderInode(th)
      || (cfg.path(th.key) in fs.dir && Some(fs.dir[cfg.path(th.key)]) == ReaderInode(m.th))
  {
  }

  lemma FsHarmless(cfg: Config, s: State, t: nat, act: Act, m: Move)
    requires Separate(cfg) && FsInv(cfg, s.fs, s.threads) && t in s.threads
    requires Harmless(act) && FileStep(cfg.path, s.fs, t, s.threads[t], act) == Some(m)
    ensures m.fs == s.fs && FsInv(cfg, m.fs, s.threads[t := m.th])
  {
    var th := s.threads[t];
    HarmlessStep(cfg, s.fs, t, th, act, m);
    forall u | u in s.threads && u != t
      ensures ThreadOk(cfg, s.fs, s.threads[u]) && Apart(m.th, s.threads[u]) && Apart(s.threads[u], m.th)
    {
      assert ThreadOk(cfg, s.fs, s.threads[u]) && Apart(th, s.threads[u]) && Apart(s.threads[u], th);
      if th.Get? && s.threads[u].Put? { PathsApart(cfg, th.key, s.threads[u].key); }
    }
    FsMove(cfg, s.fs, s.threads, t, m.th, s.fs);
  }

  /** How a file act changes the map: a rename stores the Put's body, an unlink removes, nothing else acts. */
  ghost function MapAfter(m: map<Key, Bytes>, th: Thread, act: Act): map<Key, Bytes> {
    if act == RenameTmp(true) && th.Put? then m[th.key := th.body]
    else if act == Unlink(true) && th.Delete? then m - {th.key}
    else m
  }

  /** The removal of the Put's own tmp file, or of the Delete's entry. */
  lemma FsRemoving(cfg: Config, s: State, t: nat, act: Act, m: Move, view: map<Key, Bytes>)
    requires Separate(cfg) && FsInv(cfg, s.fs, s.threads) && t in s.threads
    requires act == RemoveTmp(true) || act == Unlink(true)
    requires FileStep(cfg.path, s.fs, t, s.threads[t], act) == Some(m)
    ensures FsInv(cfg, m.fs, s.threads[t := m.th])
    requires Shows(cfg, s.fs, view)
    ensures Shows(cfg, m.fs, MapAfter(view, s.threads[t], act))
  {
    var th := s.threads[t];
    RemovingMoves(cfg, s.fs, t, th, act, m);
    assert ThreadOk(cfg, s.fs, th);
    var p := if act.RemoveTmp? then Tmp(cfg.path(th.key)) else cfg.path(th.key);
    FsRemove(cfg, s.fs, s.threads, p);
    FsMove(cfg, m.fs, s.threads, t, m.th, m.fs);
    if act.RemoveTmp? { TmpRemovalShows(cfg, s.fs, th.key, view); }
    else { RemoveShows(cfg, s.fs, p, Some(th.key), view); }
  }

  /** Removing a tmp file changes no entry. */
  lemma TmpRemovalShows(cfg: Config, fs: Fs, k: Key, m: map<Key, Bytes>)
    requires Separate(cfg) && k in cfg.keys && Shows(cfg, fs, m)
    ensures Shows(cfg, fs.Remove(Tmp(cfg.path(k))), m)
  {
    assert IsTmp(cfg, Tmp(cfg.path(k)));
    KindsApart(cfg, Tmp(cfg.path(k)));
    SameEntries(cfg, fs, fs.Remove(Tmp(cfg.path(k))), m);
  }

  lemma RemovingMoves(cfg: Config, fs: Fs, t: nat, th: Thread, act: Act, m: Move)
    requires act == RemoveTmp(true) || act == Unlink(true)
    requires FileStep(cfg.path, fs, t, th, act) == Some(m)
    ensures if act.RemoveTmp? then th.Put? && m.th == th.(put := PutDone(false)) else th.Delete? && m.th == Idle
    ensures m.fs == fs.Remove(if act.RemoveTmp? then Tmp(cfg.path(th.key)) else cfg.path(th.key))
  {
  }

  /** Making directories, and creating, writing and publishing the tmp file. */
  lemma FsWriting(cfg: Config, s: State, t: nat, act: Act, m: Move, view: map<Key, Bytes>)
    requires Separate(cfg) && FsInv(cfg, s.fs, s.threads) && KeepsApart(s, Do(t, act))
    requires act.MakeDirs? || act == CreateTmp(true) || act.CopyChunk? || act == RenameTmp(true)
    requires t in s.threads && s.threads[t].Put? && PutStep(cfg.path, s.fs, t, s.threads[t], act) == Some(m)
    ensures FsInv(cfg, m.fs, s.threads[t := m.th])
    requires Shows(cfg, s.fs, view)
    ensures Shows(cfg, m.fs, MapAfter(view, s.threads[t], act))
  {
    match act
    case MakeDirs(d) => MakesDirs(cfg, s, t, d, m, view);
    case CreateTmp(_) => Creates(cfg, s, t, m, view);
    case CopyChunk(n) => Copies(cfg, s, t, n, m, view);
    case RenameTmp(_) => Renames(cfg, s, t, m, view);
  }

  lemma MakesDirs(cfg: Config, s: State, t: nat, d: Path, m: Move, view: map<Key, Bytes>)
    requires Separate(cfg) && FsInv(cfg, s.fs, s.threads) && Shows(cfg, s.fs, view)
    requires t in s.threads && s.threads[t].Put? && PutStep(cfg.path, s.fs, t, s.threads[t], MakeDirs(d)) == Some(m)
    ensures FsInv(cfg, m.fs, s.threads[t := m.th]) && Shows(cfg, m.fs, view)
  {
    MakeDirsMove(cfg, s, t, d, m);
    FsMakeDirs(cfg, s, t, d, view);
  }

  lemma MakeDirsMove(cfg: Config, s: State, t: nat, d: Path, m: Move)
    requires t in s.threads && s.threads[t].Put? && PutStep(cfg.path, s.fs, t, s.threads[t], MakeDirs(d)) == Some(m)
    ensures d < cfg.path(s.threads[t].key) && s.fs.CanMakeDirs(d)
    ensures m.fs == s.fs.MakeDirs(d) && s.threads[t := m.th] == s.threads
  {
  }

  lemma Creates(cfg: Config, s: State, t: nat, m: Move, view: map<Key, Bytes>)
    requires Separate(cfg) && FsInv(cfg, s.fs, s.threads) && Shows(cfg, s.fs, view)
    requires t in s.threads && s.threads[t].Put? && Alone(s.threads, t, s.threads[t].key)
    requires PutStep(cfg.path, s.fs, t, s.threads[t], CreateTmp(true)) == Some(m)
    ensures FsInv(cfg, m.fs, s.threads[t := m.th]) && Shows(cfg, m.fs, view)
  {
    FsCreate(cfg, s, t, view);
    CreateMove(cfg, s.fs, t, s.threads[t], m);
  }

  lemma CreateMove(cfg: Config, fs: Fs, t: nat, th: Thread, m: Move)
    requires th.Put? && PutStep(cfg.path, fs, t, th, CreateTmp(true)) == Some(m)
    ensures m.fs == fs.Create(Tmp(cfg.path(th.key))) && m.th == Creating(cfg, fs, th)
  {
  }

  lemma Copies(cfg: Config, s: State, t: nat, n: nat, m: Move, view: map<Key, Bytes>)
    requires Separate(cfg) && FsInv(cfg, s.fs, s.threads) && Shows(cfg, s.fs, view)
    requires t in s.threads && s.threads[t].Put? && PutStep(cfg.path, s.fs, t, s.threads[t], CopyChunk(n)) == Some(m)
    ensures FsInv(cfg, m.fs, s.threads[t := m.th]) && Shows(cfg, m.fs, view)
  {
    FsChunk(cfg, s, t, n, view);
  }

  lemma Renames(cfg: Config, s: State, t: nat, m: Move, view: map<Key, Bytes>)
    requires Separate(cfg) && FsInv(cfg, s.fs, s.threads) && Shows(cfg, s.fs, view)
    requires t in s.threads && s.threads[t].Put?
    requires PutStep(cfg.path, s.fs, t, s.threads[t], RenameTmp(true)) == Some(m)
    ensures FsInv(cfg, m.fs, s.threads[t := m.th])
    ensures Shows(cfg, m.fs, view[s.threads[t].key := s.threads[t].body])
  {
    FsRename(cfg, s, t, view);
  }

  lemma FsAct(cfg: Config, s: State, t: nat, act: Act, m: Move, view: map<Key, Bytes>)
    requires Separate(cfg) && FsInv(cfg, s.fs, s.threads) && KeepsApart(s, Do(t, act))
    requires t in s.threads && FileStep(cfg.path, s.fs, t, s.threads[t], act) == Some(m)
    ensures FsInv(cfg, m.fs, s.threads[t := m.th])
    requires Shows(cfg, s.fs, view)
    ensures Shows(cfg, m.fs, MapAfter(view, s.threads[t], act))
  {
    if Harmless(act) { FsHarmless(cfg, s, t, act, m); }
    else if act.RemoveTmp? || act.Unlink? { FsRemoving(cfg, s, t, act, m, view); }
    else { FsWriting(cfg, s, t, act, m, view); }
  }

  // ---- the flight table, step by step ----

  /** A thread may move within its flight, or out of every flight. */
  lemma FlightMove(cfg: Config, table: Table, threads: map<nat, Thread>, t: nat, th: Thread)
    requires FlightInv(cfg, table, threads)
    requires LeaderFlight(th).None? || LeaderFlight(th) == LeaderFlight(ThreadAt(threads, t))
    requires LeaderOk(cfg, table, th) && FollowerOk(table, th)
    ensures FlightInv(cfg, table, threads[t := th])
  {
    forall u | u in threads && u != t ensures OtherFlight(th, threads[u]) && OtherFlight(threads[u], th) {
      if t in threads { assert OtherFlight(threads[t], threads[u]) && OtherFlight(threads[u], threads[t]); }
    }
  }

  /** A file act keeps a leader in its flight. */
  lemma ActStaysInCall(cfg: Config, table: Table, fs: Fs, t: nat, th: Thread, act: Act, m: Move)
    requires LeaderOk(cfg, table, th) && FileStep(cfg.path, fs, t, th, act) == Some(m)
    ensures LeaderFlight(m.th) == LeaderFlight(th)
    ensures LeaderOk(cfg, table, m.th) && FollowerOk(table, m.th)
  {
  }

  lemma FlightFly(cfg: Config, s: State, t: nat, call: Call)
    requires FlightInv(cfg, s.table, s.threads) && (call.PutCall? || call.HeadCall?) && s.At(t).Idle?
    ensures FlightInv(cfg, Fly(s, t, call).table, Fly(s, t, call).threads)
  {
    var s' := Fly(s, t, call);
    if FlightName(call) in s.table.flights {
      FlightMove(cfg, s.table, s.threads, t, s'.threads[t]);
    } else {
      forall u | u in s.threads && u != t
        ensures LeaderOk(cfg, s'.table, s.threads[u]) && FollowerOk(s'.table, s.threads[u])
        ensures OtherFlight(s'.threads[t], s.threads[u]) && OtherFlight(s.threads[u], s'.threads[t])
      {
        assert LeaderOk(cfg, s.table, s.threads[u]) && FollowerOk(s.table, s.threads[u]);
      }
      assert TableOk(s'.table);
    }
  }

  /** Settling hands the leader's key, kind and outcome to exactly the followers of its flight. */
  lemma FlightSettle(cfg: Config, s: State, t: nat)
    requires FlightInv(cfg, s.table, s.threads) && t in s.threads
    requires LeaderFlight(s.threads[t]).Some? && LeaderOutcome(s.threads[t]).Some?
    ensures FlightInv(cfg, SettleFlight(s, t).table, SettleFlight(s, t).threads)
  {
    var th, s' := s.threads[t], SettleFlight(s, t);
    assert LeaderOk(cfg, s.table, th);
    forall u | u in s.threads && u != t
      ensures LeaderOk(cfg, s'.table, s.threads[u]) && FollowerOk(s'.table, s.threads[u])
    {
      var other := s.threads[u];
      assert LeaderOk(cfg, s.table, other) && FollowerOk(s.table, other) && OtherFlight(th, other);
      if other.Waiting? && other.flight == LeaderFlight(th).value { FlightNamesApart(other.call, LeaderCall(th)); }
    }
    assert TableOk(s'.table);
    FlightMove(cfg, s'.table, s.threads[t := Idle], t, Idle);
  }

  // ---- the log, step by step ----

  /** The event, if any, may come next in the log, belongs to thread t, and settles no flight. */
  ghost predicate GoodEvent(log: Log, t: nat, e: Option<Event>) {
    e.Some? ==> LegalNext(log, e.value) && !e.value.Evicted? && !e.value.Settled? && e.value.t == t
  }

  lemma PutActIsLegal(cfg: Config, fs: Fs, t: nat, th: Thread, act: Act, m: Move, log: Log)
    requires th.Put? && LastOk(log, t, th) && PutStep(cfg.path, fs, t, th, act) == Some(m)
    ensures GoodEvent(log, t, m.event) && LastOk(Extend(log, m.event), t, m.th)
    ensures MapOf(Extend(log, m.event)) == MapAfter(MapOf(log), th, act)
  {
    PutMoves(cfg.path, fs, t, th, act, m);
  }

  /** A Put logs its rename and nothing else. */
  lemma PutMoves(path: Key -> Path, fs: Fs, t: nat, th: Thread, act: Act, m: Move)
    requires th.Put? && PutStep(path, fs, t, th, act) == Some(m)
    ensures th.put != PutDone(true) && m.th.Put? && m.th.(put := th.put) == th
    ensures if act == RenameTmp(true) then m.event == Some(Stored(t, th.key, th.body)) && m.th.put == PutDone(true)
            else m.event == None && m.th.put != PutDone(true)
  {
  }

  lemma HeadActIsLegal(cfg: Config, fs: Fs, t: nat, th: Thread, act: Act, m: Move, log: Log)
    requires th.Head? && LastOk(log, t, th) && HeadStep(cfg.path, fs, t, th, act) == Some(m)
    requires fs.Content(cfg.path(th.key)) == Lookup(MapOf(log), th.key) && cfg.path(th.key) !in fs.dirs
    ensures GoodEvent(log, t, m.event) && LastOk(Extend(log, m.event), t, m.th)
    ensures MapOf(Extend(log, m.event)) == MapAfter(MapOf(log), th, act)
  {
  }

  /** A delivered body is the whole of what the open saw: the inode has not changed since. */
  lemma GetActIsLegal(cfg: Config, fs: Fs, t: nat, th: Thread, act: Act, m: Move, log: Log)
    requires th.Get? && LastOk(log, t, th) && GetStep(cfg.path, fs, t, th, act) == Some(m) && ReaderOk(cfg, fs, th)
    requires fs.Content(cfg.path(th.key)) == Lookup(MapOf(log), th.key) && cfg.path(th.key) !in fs.dirs
    ensures GoodEvent(log, t, m.event) && LastOk(Extend(log, m.event), t, m.th)
    ensures MapOf(Extend(log, m.event)) == MapAfter(MapOf(log), th, act)
  {
    if act.ReadEnd? { assert th.get.got == th.get.seen; }
  }

  lemma DeleteActIsLegal(cfg: Config, fs: Fs, t: nat, th: Thread, act: Act, m: Move, log: Log)
    requires th.Delete? && LastOk(log, t, th) && DeleteStep(cfg.path, fs, t, th, act) == Some(m)
    ensures GoodEvent(log, t, m.event) && LastOk(Extend(log, m.event), t, m.th)
    ensures MapOf(Extend(log, m.event)) == MapAfter(MapOf(log), th, act)
  {
  }

  /** A file act logs what it does, in its thread's turn, and what it saw of the map. */
  lemma ActIsLegal(cfg: Config, s: State, t: nat, act: Act, m: Move)
    requires Separate(cfg) && FsInv(cfg, s.fs, s.threads)
    requires LastOk(s.log, t, s.At(t)) && Shows(cfg, s.fs, MapOf(s.log))
    requires FileStep(cfg.path, s.fs, t, s.At(t), act) == Some(m)
    ensures GoodEvent(s.log, t, m.event) && LastOk(Extend(s.log, m.event), t, m.th)
    ensures MapOf(Extend(s.log, m.event)) == MapAfter(MapOf(s.log), s.At(t), act)
  {
    var th := s.threads[t];
    assert ThreadOk(cfg, s.fs, th);
    assert ShowsAt(cfg, s.fs, MapOf(s.log), th.key);
    assert IsEntry(cfg, cfg.path(th.key));
    KindsApart(cfg, cfg.path(th.key));
    if th.Put? { PutActIsLegal(cfg, s.fs, t, th, act, m, s.log); }
    else if th.Head? { HeadActIsLegal(cfg, s.fs, t, th, act, m, s.log); }
    else if th.Get? { GetActIsLegal(cfg, s.fs, t, th, act, m, s.log); }
    else { DeleteActIsLegal(cfg, s.fs, t, th, act, m, s.log); }
  }

  /** An event of one thread leaves every other thread's latest event as it was. */
  lemma LogMove(table: Table, threads: map<nat, Thread>, log: Log, t: nat, th: Thread, e: Option<Event>)
    requires LogInv(table, threads, log)
    requires GoodEvent(log, t, e) && LastOk(Extend(log, e), t, th)
    ensures LogInv(table, threads[t := th], Extend(log, e))
  {
    var threads', log' := threads[t := th], Extend(log, e);
    forall u: nat ensures LastOk(log', u, ThreadAt(threads', u)) {
      if u != t {
        assert LastOk(log, u, ThreadAt(threads, u));
        assert Last(log', u) == Last(log, u);
      }
    }
  }

  lemma LogSettle(cfg: Config, s: State, t: nat)
    requires Inv(cfg, s) && t in s.threads
    requires LeaderFlight(s.threads[t]).Some? && LeaderOutcome(s.threads[t]).Some?
    ensures var s' := SettleFlight(s, t); LogInv(s'.table, s'.threads, s'.log) && MapOf(s'.log) == MapOf(s.log)
  {
    var th, s' := s.threads[t], SettleFlight(s, t);
    assert LeaderOk(cfg, s.table, th);
    assert LastOk(s.log, t, ThreadAt(s.threads, t));
    assert LegalNext(s.log, s'.log.event);
    forall u: nat ensures LastOk(s'.log, u, ThreadAt(s'.threads, u)) {
      if u != t {
        assert LastOk(s.log, u, ThreadAt(s.threads, u));
        assert Last(s'.log, u) == Last(s.log, u);
      }
    }
  }

  /** A writer that bypasses the flight table returns. */
  lemma LogBackfilled(cfg: Config, s: State, t: nat)
    requires Inv(cfg, s) && t in s.threads && s.threads[t].Put? && s.threads[t].put.PutDone?
    ensures
      var e := Backfilled(t, s.threads[t].put.ok);
      LogInv(s.table, s.threads[t := Idle], Then(s.log, e)) && MapOf(Then(s.log, e)) == MapOf(s.log)
  {
    assert LastOk(s.log, t, ThreadAt(s.threads, t));
    LogMove(s.table, s.threads, s.log, t, Idle, Some(Backfilled(t, s.threads[t].put.ok)));
  }

  lemma LogShare(cfg: Config, s: State, t: nat)
    requires Inv(cfg, s) && t in s.threads && s.threads[t].Waiting? && s.threads[t].flight in s.table.results
    ensures
      var e := Shared(t, s.threads[t].flight, s.table.results[s.threads[t].flight].1);
      LogInv(s.table, s.threads[t := Idle], Then(s.log, e)) && MapOf(Then(s.log, e)) == MapOf(s.log)
  {
    assert LastOk(s.log, t, ThreadAt(s.threads, t));
    assert FollowerOk(s.table, s.threads[t]);
    var e := Shared(t, s.threads[t].flight, s.table.results[s.threads[t].flight].1);
    LogMove(s.table, s.threads, s.log, t, Idle, Some(e));
  }

  lemma LogEvict(cfg: Config, s: State, p: Path, entry: Option<Key>)
    requires Separate(cfg) && Inv(cfg, s) && Next(cfg, s, Evict(p, entry)).Some?
    ensures
      var s' := Next(cfg, s, Evict(p, entry)).value;
      LogInv(s'.table, s'.threads, s'.log) && Shows(cfg, s'.fs, MapOf(s'.log))
  {
    var s' := Next(cfg, s, Evict(p, entry)).value;
    EvictedLog(s.table, s.threads, s.log, entry);
    RemoveShows(cfg, s.fs, p, entry, MapOf(s.log));
  }

  lemma EvictedLog(table: Table, threads: map<nat, Thread>, log: Log, entry: Option<Key>)
    requires LogInv(table, threads, log)
    ensures
      var log' := Extend(log, if entry.Some? then Some(Evicted(entry.value)) else None);
      && LogInv(table, threads, log')
      && MapOf(log') == MapOf(log) - (if entry.Some? then {entry.value} else {})
  {
    var log' := Extend(log, if entry.Some? then Some(Evicted(entry.value)) else None);
    forall u: nat ensures LastOk(log', u, ThreadAt(threads, u)) {
      assert LastOk(log, u, ThreadAt(threads, u));
      assert Last(log', u) == Last(log, u);
    }
    assert MapOf(log) - {} == MapOf(log);
  }

  // ---- the flight table needs nothing of the files or the log ----

  lemma FlightStep(cfg: Config, s: State, l: Label, s': State)
    requires FlightInv(cfg, s.table, s.threads) && Next(cfg, s, l) == Some(s')
    ensures FlightInv(cfg, s'.table, s'.threads)
  {
    match l
    case Request(t, call) =>
      if call.PutCall? || call.HeadCall? { FlightFly(cfg, s, t, call); }
      else { FlightMove(cfg, s.table, s.threads, t, s'.threads[t]); }
    case Backfill(t, _, _) => FlightMove(cfg, s.table, s.threads, t, s'.threads[t]);
    case Do(t, act) => FlightAct(cfg, s, t, act, s');
    case Settle(t) =>
      if LeaderFlight(s.At(t)).Some? { FlightSettle(cfg, s, t); }
      else { FlightMove(cfg, s.table, s.threads, t, Idle); }
    case Share(t) => FlightMove(cfg, s.table, s.threads, t, Idle);
    case Evict(_, _) =>
  }

  lemma FlightAct(cfg: Config, s: State, t: nat, act: Act, s': State)
    requires FlightInv(cfg, s.table, s.threads) && Next(cfg, s, Do(t, act)) == Some(s')
    ensures FlightInv(cfg, s'.table, s'.threads)
  {
    var m := FileStep(cfg.path, s.fs, t, s.At(t), act).value;
    assert LeaderOk(cfg, s.table, s.threads[t]);
    ActStaysInCall(cfg, s.table, s.fs, t, s.threads[t], act, m);
    FlightMove(cfg, s.table, s.threads, t, m.th);
  }

  lemma {:induction false} FlightRun(cfg: Config, run: seq<Label>, s: State)
    requires Exec(cfg, Init(), run) == Some(s)
    ensures FlightInv(cfg, s.table, s.threads)
    decreases |run|
  {
    if run != [] {
      var mid := Exec(cfg, Init(), run[..|run| - 1]).value;
      FlightRun(cfg, run[..|run| - 1], mid);
      FlightStep(cfg, mid, run[|run| - 1], s);
    }
  }

  // ---- one step keeps the invariant ----

  /** A call that begins claims no inode. */
  lemma RequestClaims(cfg: Config, s: State, t: nat, call: Call, s': State)
    requires Next(cfg, s, Request(t, call)) == Some(s')
    ensures s'.fs == s.fs && t in s'.threads && s'.threads == s.threads[t := s'.threads[t]]
    ensures ThreadOk(cfg, s.fs, s'.threads[t])
    ensures WriterInode(s'.threads[t]).None? && ReaderInode(s'.threads[t]).None?
  {
  }

  lemma BackfillKeeps(cfg: Config, s: State, t: nat, k: Key, b: Bytes, s': State)
    requires Separate(cfg) && Inv(cfg, s) && Next(cfg, s, Backfill(t, k, b)) == Some(s')
    ensures FsInv(cfg, s'.fs, s'.threads)
    ensures LogInv(s'.table, s'.threads, s'.log) && Shows(cfg, s'.fs, MapOf(s'.log))
  {
    assert LastOk(s.log, t, ThreadAt(s.threads, t));
    FsMove(cfg, s.fs, s.threads, t, s'.threads[t], s.fs);
    LogMove(s.table, s.threads, s.log, t, s'.threads[t], Some(Began(t, PutCall(k, b))));
  }

  lemma RequestKeeps(cfg: Config, s: State, t: nat, call: Call, s': State)
    requires Separate(cfg) && Inv(cfg, s) && Next(cfg, s, Request(t, call)) == Some(s')
    ensures FsInv(cfg, s'.fs, s'.threads)
    ensures LogInv(s'.table, s'.threads, s'.log) && Shows(cfg, s'.fs, MapOf(s'.log))
  {
    RequestClaims(cfg, s, t, call, s');
    FsMove(cfg, s.fs, s.threads, t, s'.threads[t], s.fs);
    RequestLogs(cfg, s, t, call, s');
  }

  lemma RequestLogs(cfg: Config, s: State, t: nat, call: Call, s': State)
    requires Inv(cfg, s) && Next(cfg, s, Request(t, call)) == Some(s')
    ensures LogInv(s'.table, s'.threads, s'.log) && MapOf(s'.log) == MapOf(s.log)
  {
    var th := s'.threads[t];
    assert LastOk(s.log, t, ThreadAt(s.threads, t));
    var e := if th.Waiting? then Joined(t, th.flight, call) else Began(t, call);
    LogMove(s.table, s.threads, s.log, t, th, Some(e));
  }

  lemma ActKeeps(cfg: Config, s: State, t: nat, act: Act, s': State)
    requires Separate(cfg) && Inv(cfg, s) && KeepsApart(s, Do(t, act)) && Next(cfg, s, Do(t, act)) == Some(s')
    ensures FsInv(cfg, s'.fs, s'.threads)
    ensures LogInv(s'.table, s'.threads, s'.log) && Shows(cfg, s'.fs, MapOf(s'.log))
  {
    var m := FileStep(cfg.path, s.fs, t, s.At(t), act).value;
    assert LastOk(s.log, t, ThreadAt(s.threads, t));
    FsAct(cfg, s, t, act, m, MapOf(s.log));
    ActIsLegal(cfg, s, t, act, m);
    LogMove(s.table, s.threads, s.log, t, m.th, m.event);
  }

  lemma SettleKeeps(cfg: Config, s: State, t: nat, s': State)
    requires Separate(cfg) && Inv(cfg, s) && Next(cfg, s, Settle(t)) == Some(s')
    ensures FsInv(cfg, s'.fs, s'.threads)
    ensures LogInv(s'.table, s'.threads, s'.log) && Shows(cfg, s'.fs, MapOf(s'.log))
  {
    FsMove(cfg, s.fs, s.threads, t, Idle, s.fs);
    if LeaderFlight(s.threads[t]).Some? { LogSettle(cfg, s, t); } else { LogBackfilled(cfg, s, t); }
  }

  lemma ShareKeeps(cfg: Config, s: State, t: nat, s': State)
    requires Separate(cfg) && Inv(cfg, s) && Next(cfg, s, Share(t)) == Some(s')
    ensures FsInv(cfg, s'.fs, s'.threads)
    ensures LogInv(s'.table, s'.threads, s'.log) && Shows(cfg, s'.fs, MapOf(s'.log))
  {
    FsMove(cfg, s.fs, s.threads, t, Idle, s.fs);
    LogShare(cfg, s, t);
  }

  lemma StepKeeps(cfg: Config, s: State, l: Label, s': State)
    requires Separate(cfg) && Inv(cfg, s) && KeepsApart(s, l) && Next(cfg, s, l) == Some(s')
    ensures Inv(cfg, s')
  {
    FlightStep(cfg, s, l, s');
    match l
    case Request(t, call) => RequestKeeps(cfg, s, t, call, s');
    case Do(t, act) => ActKeeps(cfg, s, t, act, s');
    case Settle(t) => SettleKeeps(cfg, s, t, s');
    case Share(t) => ShareKeeps(cfg, s, t, s');
    case Evict(p, entry) => FsRemove(cfg, s.fs, s.threads, p); LogEvict(cfg, s, p, entry);
    case Backfill(t, k, b) => BackfillKeeps(cfg, s, t, k, b, s');
  }

  /** Writers that bypass the flight table included, as long as Puts of one key do not overlap. */
  lemma {:induction false} RunKeeps(cfg: Config, run: seq<Label>, s: State)
    requires Separate(cfg) && Exec(cfg, Init(), run) == Some(s) && LoneRun(cfg, Init(), run)
    ensures Inv(cfg, s)
    decreases |run|
  {
    if run != [] {
      var mid := Exec(cfg, Init(), run[..|run| - 1]).value;
      RunKeeps(cfg, run[..|run| - 1], mid);
      StepKeeps(cfg, mid, run[|run| - 1], s);
    }
  }

  /** Without bypassing writers the flight table keeps the Puts of a key apart, in every run. */
  lemma {:induction false} FlightsKeepApart(cfg: Config, run: seq<Label>, s: State)
    requires !cfg.backfill && Exec(cfg, Init(), run) == Some(s)
    ensures LoneRun(cfg, Init(), run)
    decreases |run|
  {
    if run != [] {
      var l, mid := run[|run| - 1], Exec(cfg, Init(), run[..|run| - 1]).value;
      FlightsKeepApart(cfg, run[..|run| - 1], mid);
      if l.Do? && l.act == CreateTmp(true) && mid.At(l.t).Put? {
        FlightRun(cfg, run[..|run| - 1], mid);
        forall u | u in mid.threads && u != l.t && Writing(mid.threads[u])
          ensures mid.threads[u].key != mid.At(l.t).key
        {
          if mid.threads[u].key == mid.At(l.t).key { OneWriterPerKey(cfg, mid.table, mid.threads, l.t, u); }
        }
      }
    }
  }
}
