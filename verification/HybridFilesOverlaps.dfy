/** Any two local writes of one key that overlap can put a torn body into S3, whoever makes them. */
module HybridFilesOverlaps {
  import opened Base
  import opened FileSystem
  import History
  import SF = SingleFlightLocal
  import SP = SingleFlightLocalProofs
  import SW = SingleFlightLocalWitnesses
  import Up = AsyncUpload
  import AA = AsyncAccounting
  import AC = AsyncConvergence
  import AD = AsyncDurability
  import opened HybridFiles
  import opened HybridFilesTheorems

  // ---- building runs ----

  const EMPTY: Fs := Fs(map[], map[], 0, {[]})

  /** A configuration, what Puts carry, what S3 has at first, and which local writes may overlap. */
  datatype Scene = Scene(cfg: Config, f: Key -> Bytes, s3: map<Key, Bytes>, allowed: set<(Writer, Writer)>)

  ghost predicate Led(x: Scene, run: seq<Label>, s: State) {
    var init := Init(x.cfg, EMPTY, x.s3);
    Exec(x.cfg, init, run) == Some(s) && RunOverlaps(x.cfg, init, run, x.allowed) && AddressedRun(x.f, run)
  }

  /** Some content-addressed run from an empty local tier, with only the overlaps allowed, ends in s. */
  ghost predicate Reached(x: Scene, s: State) { exists run :: Led(x, run, s) }

  lemma Step(x: Scene, s: State, l: Label, s': State)
    requires Reached(x, s) && Next(x.cfg, s, l) == Some(s') && Overlaps(s, l, x.allowed) && Addressed(x.f, l)
    ensures Reached(x, s')
  {
    var run :| Led(x, run, s);
    assert (run + [l])[..|run|] == run;
    assert Led(x, run + [l], s');
  }

  /** Client c's local write makes the move m. */
  lemma Writes(x: Scene, s: State, c: nat, act: SF.Act, m: SF.Move)
    requires Reached(x, s) && WriteMove(x.cfg, s, c, act) == Some(m) && m.th.Put?
    requires !s.up.phase.Crashed? && Overlaps(s, Write(c, act), x.allowed)
    ensures Reached(x, Landed(x.cfg, s, c, m))
  {
    Step(x, s, Write(c, act), Landed(x.cfg, s, c, m));
  }

  // ---- a local write up to its rename ----

  /** With the files as they are, and client c's local write at th. */
  function With(x: Scene, s: State, c: nat, fs: Fs, th: SF.Thread): State {
    State(fs, s.writers[c := th], s.up.(local := Shown(x.cfg.sf, fs)))
  }

  /** No other client's local write has got beyond its beginning. */
  ghost predicate OthersWait(s: State, c: nat) {
    forall u :: u in s.writers && u != c ==> s.writers[u].Idle? || (s.writers[u].Put? && s.writers[u].put.Starting?)
  }

  /** The files with a new tmp file of k, of content b. */
  function Added(fs: Fs, tmp: Path, b: Bytes): Fs {
    Fs(fs.dir[tmp := fs.next], fs.data[fs.next := b], fs.next + 1, fs.dirs)
  }

  /** A local write of b at k, with its directories made and no tmp file there, creates its tmp file */
  lemma WriterCreates(x: Scene, s: State, c: nat, th: SF.Thread) returns (s': State)
    requires Reached(x, s) && th.Put? && s.At(c) == th && th.put.Starting? && OthersWait(s, c) && !s.up.phase.Crashed?
    requires s.fs.CanCreate(Tmp(x.cfg.sf.path(th.key))) && Tmp(x.cfg.sf.path(th.key)) !in s.fs.dir
    ensures Reached(x, s')
    ensures s' == With(x, s, c, Added(s.fs, Tmp(x.cfg.sf.path(th.key)), []), th.(put := SF.Copying(s.fs.next, 0)))
  {
    var tmp := Tmp(x.cfg.sf.path(th.key));
    assert s.fs.Create(tmp) == Added(s.fs, tmp, []);
    var m := SF.Move(th.(put := SF.Copying(s.fs.next, 0)), Added(s.fs, tmp, []), None);
    Writes(x, s, c, SF.CreateTmp(true), m);
    s' := Landed(x.cfg, s, c, m);
  }

  /** ... copies it, in one piece */
  lemma WriterCopies(x: Scene, s: State, c: nat, th: SF.Thread, n: nat) returns (s': State)
    requires Reached(x, s) && th.Put? && s.At(c) == th && th.put == SF.Copying(n, 0) && th.body != []
    requires n in s.fs.data && s.fs.data[n] == [] && !s.up.phase.Crashed?
    ensures Reached(x, s')
    ensures s' == With(x, s, c, s.fs.(data := s.fs.data[n := th.body]), th.(put := SF.Copying(n, |th.body|)))
  {
    assert Splice([], 0, th.body[0..|th.body|]) == th.body;
    var m := SF.Move(th.(put := SF.Copying(n, |th.body|)), s.fs.(data := s.fs.data[n := th.body]), None);
    Writes(x, s, c, SF.CopyChunk(|th.body|), m);
    s' := Landed(x.cfg, s, c, m);
  }

  /** ... closes it */
  lemma WriterCloses(x: Scene, s: State, c: nat, th: SF.Thread, n: nat) returns (s': State)
    requires Reached(x, s) && th.Put? && s.At(c) == th && th.put == SF.Copying(n, |th.body|)
    requires !s.up.phase.Crashed?
    ensures Reached(x, s') && s' == With(x, s, c, s.fs, th.(put := SF.PutPc.Closed(n)))
  {
    var m := SF.Move(th.(put := SF.PutPc.Closed(n)), s.fs, None);
    Writes(x, s, c, SF.CloseTmp(true), m);
    s' := Landed(x.cfg, s, c, m);
  }

  /** ... and takes the lock. */
  lemma WriterLocks(x: Scene, s: State, c: nat, th: SF.Thread, n: nat) returns (s': State)
    requires Reached(x, s) && th.Put? && s.At(c) == th && th.put == SF.PutPc.Closed(n) && OthersWait(s, c)
    requires !s.up.phase.Crashed?
    ensures Reached(x, s') && s' == With(x, s, c, s.fs, th.(put := SF.Locked(n)))
  {
    var m := SF.Move(th.(put := SF.Locked(n)), s.fs, None);
    LockIsFree(x, s, c);
    Writes(x, s, c, SF.WriteLock, m);
    s' := Landed(x.cfg, s, c, m);
  }

  lemma LockIsFree(x: Scene, s: State, c: nat)
    requires OthersWait(s, c) && s.At(c).Put? && s.At(c).put.Closed?
    ensures SF.Admitted(x.cfg.sf, s.writers, s.At(c), SF.WriteLock)
  {
  }

  lemma WithTwice(x: Scene, s: State, c: nat, fs: Fs, th: SF.Thread, fs': Fs, th': SF.Thread)
    ensures With(x, With(x, s, c, fs, th), c, fs', th') == With(x, s, c, fs', th')
  {
    assert s.writers[c := th][c := th'] == s.writers[c := th'];
  }

  lemma AddedWhole(fs: Fs, tmp: Path, b: Bytes)
    ensures Added(fs, tmp, []).(data := Added(fs, tmp, []).data[fs.next := b]) == Added(fs, tmp, b)
  {
    assert fs.data[fs.next := []][fs.next := b] == fs.data[fs.next := b];
  }

  lemma WriterWrites(x: Scene, s: State, c: nat, th: SF.Thread) returns (s': State)
    requires Reached(x, s) && th.Put? && s.At(c) == th && th.put.Starting? && th.body != []
    requires OthersWait(s, c) && !s.up.phase.Crashed?
    requires s.fs.CanCreate(Tmp(x.cfg.sf.path(th.key))) && Tmp(x.cfg.sf.path(th.key)) !in s.fs.dir
    ensures Reached(x, s')
    ensures s' == With(x, s, c, Added(s.fs, Tmp(x.cfg.sf.path(th.key)), th.body),
                       th.(put := SF.Copying(s.fs.next, |th.body|)))
  {
    var n, tmp := s.fs.next, Tmp(x.cfg.sf.path(th.key));
    var first, last := th.(put := SF.Copying(n, 0)), th.(put := SF.Copying(n, |th.body|));
    s' := WriterCreates(x, s, c, th);
    s' := WriterCopies(x, s', c, first, n);
    AddedWhole(s.fs, tmp, th.body);
    WithTwice(x, s, c, Added(s.fs, tmp, []), first, Added(s.fs, tmp, th.body), last);
  }

  /** A whole local write up to its rename. */
  lemma WriterReachesRename(x: Scene, s: State, c: nat, th: SF.Thread) returns (s': State)
    requires Reached(x, s) && th.Put? && s.At(c) == th && th.put.Starting? && th.body != []
    requires OthersWait(s, c) && !s.up.phase.Crashed?
    requires s.fs.CanCreate(Tmp(x.cfg.sf.path(th.key))) && Tmp(x.cfg.sf.path(th.key)) !in s.fs.dir
    ensures Reached(x, s')
    ensures s' == With(x, s, c, Added(s.fs, Tmp(x.cfg.sf.path(th.key)), th.body), th.(put := SF.Locked(s.fs.next)))
  {
    var fs, last := Added(s.fs, Tmp(x.cfg.sf.path(th.key)), th.body), th.(put := SF.Copying(s.fs.next, |th.body|));
    s' := WriterWrites(x, s, c, th);
    s' := WriterFinishes(x, s', c, last, s.fs.next);
    WithTwice(x, s, c, fs, last, fs, th.(put := SF.Locked(s.fs.next)));
  }

  lemma WriterFinishes(x: Scene, s: State, c: nat, th: SF.Thread, n: nat) returns (s': State)
    requires Reached(x, s) && th.Put? && s.At(c) == th && th.put == SF.Copying(n, |th.body|)
    requires OthersWait(s, c) && !s.up.phase.Crashed?
    ensures Reached(x, s') && s' == With(x, s, c, s.fs, th.(put := SF.Locked(n)))
  {
    s' := WriterCloses(x, s, c, th, n);
    s' := WriterLocks(x, s', c, th.(put := SF.PutPc.Closed(n)), n);
    WithTwice(x, s, c, s.fs, th.(put := SF.PutPc.Closed(n)), s.fs, th.(put := SF.Locked(n)));
  }

  /** The rename, and the return. */
  lemma WriterRenames(x: Scene, s: State, c: nat, th: SF.Thread, fs: Fs) returns (s': State)
    requires Reached(x, s) && th.Put? && s.At(c) == th && th.put.Locked? && !s.up.phase.Crashed?
    requires s.fs.CanRename(Tmp(x.cfg.sf.path(th.key)), x.cfg.sf.path(th.key))
    requires s.fs.Rename(Tmp(x.cfg.sf.path(th.key)), x.cfg.sf.path(th.key)) == fs
    ensures Reached(x, s')
    ensures s' == State(fs, s.writers[c := SF.Idle],
      s.up.(local := Shown(x.cfg.sf, fs)).Goto(c, Returned(th.(put := SF.PutDone(true)))))
  {
    var m := SF.Move(th.(put := SF.PutDone(true)), fs, Some(History.Stored(c, th.key, th.body)));
    Writes(x, s, c, SF.RenameTmp(true), m);
    s' := Landed(x.cfg, s, c, m);
  }

  // ---- the torn upload ----

  /** What S3 has of k at first is what every Put of k carries, and k has a file of its own. */
  ghost predicate Fits(x: Scene, k: Key) {
    && x.cfg.up.Valid() && k in x.cfg.sf.keys && x.cfg.sf.path(k) != []
    && x.f(k) != [] && x.s3 == map[k := x.f(k)]
  }

  /** The upload machine when clients 1 and 2 have fetched k, after client 0 has put it. */
  function Upload(x: Scene, k: Key, local: map<Key, Bytes>, client: Up.Client, queue: seq<Up.Item>): Up.State {
    Up.Init(x.cfg.up, local, x.s3).(
      clients := map[0 := client, 1 := Up.Fetched(k, x.f(k)), 2 := Up.Fetched(k, x.f(k))],
      queue := queue, accepted := |queue|, acked := if queue == [] then {} else {k})
  }

  /** Clients 1 and 2 miss k locally and fetch it from S3. */
  function Fetchers(x: Scene, k: Key): map<nat, Up.Client> {
    map[1 := Up.Fetched(k, x.f(k)), 2 := Up.Fetched(k, x.f(k))]
  }

  lemma BothFetch(x: Scene, k: Key) returns (s: State)
    requires Fits(x, k)
    ensures Reached(x, s) && s == State(EMPTY, map[], Up.Init(x.cfg.up, map[], x.s3).(clients := Fetchers(x, k)))
  {
    var init := Up.Init(x.cfg.up, map[], x.s3);
    var one := init.(clients := map[1 := Up.Fetched(k, x.f(k))]);
    s := State(EMPTY, map[], init.(clients := Fetchers(x, k)));
    assert Shown(x.cfg.sf, EMPTY) == map[];
    assert Led(x, [], State(EMPTY, map[], init));
    FetchesLand(x, k);
    Step(x, State(EMPTY, map[], init), Other(Up.Fetch(1, k)), State(EMPTY, map[], one));
    Step(x, State(EMPTY, map[], one), Other(Up.Fetch(2, k)), s);
  }

  lemma FetchesLand(x: Scene, k: Key)
    requires Fits(x, k)
    ensures
      var init := Up.Init(x.cfg.up, map[], x.s3);
      var one := init.(clients := map[1 := Up.Fetched(k, x.f(k))]);
      && Up.Next(x.cfg.up, init, Up.Fetch(1, k)) == Some(one)
      && Up.Next(x.cfg.up, one, Up.Fetch(2, k)) == Some(init.(clients := Fetchers(x, k)))
  {
    var one: map<nat, Up.Client> := map[1 := Up.Fetched(k, x.f(k))];
    assert one[2 := Up.Fetched(k, x.f(k))] == Fetchers(x, k);
  }

  /** The files with the one entry k. */
  function Entry(x: Scene, k: Key): Fs
    requires x.cfg.sf.path(k) != []
  {
    Fs(map[x.cfg.sf.path(k) := 0], map[0 := x.f(k)], 1, SW.DirsOf(x.cfg.sf.path(k)).dirs)
  }

  /** The state when client 0's Put of k is at pc, with the files fs. */
  function FirstPut(x: Scene, k: Key, fs: Fs, pc: SF.PutPc): State {
    State(fs, map[0 := SF.Put(k, x.f(k), Some(0), pc)],
      Up.Init(x.cfg.up, Shown(x.cfg.sf, fs), x.s3).(clients := Fetchers(x, k)))
  }

  lemma FirstPutMoves(x: Scene, k: Key, fs: Fs, pc: SF.PutPc, fs': Fs, pc': SF.PutPc)
    ensures With(x, FirstPut(x, k, fs, pc), 0, fs', SF.Put(k, x.f(k), Some(0), pc')) == FirstPut(x, k, fs', pc')
  {
    var th, th' := SF.Put(k, x.f(k), Some(0), pc), SF.Put(k, x.f(k), Some(0), pc');
    assert map[0 := th][0 := th'] == map[0 := th'];
  }

  lemma PutStarts(x: Scene, k: Key)
    requires Fits(x, k)
    ensures Reached(x, FirstPut(x, k, EMPTY, SF.Starting))
  {
    assert Shown(x.cfg.sf, EMPTY) == map[];
    var fetched := BothFetch(x, k);
    Step(x, fetched, BeginPut(0, k, x.f(k)), FirstPut(x, k, EMPTY, SF.Starting));
  }

  lemma DirsFit(p: Path)
    requires p != []
    ensures p[..|p| - 1] < p && EMPTY.CanMakeDirs(p[..|p| - 1]) && EMPTY.MakeDirs(p[..|p| - 1]) == SW.DirsOf(p)
  {
    SW.DirsOfAre(p);
  }

  /** Client 0's Put has made its directories, */
  lemma PutBegins(x: Scene, k: Key)
    requires Fits(x, k)
    ensures Reached(x, FirstPut(x, k, SW.DirsOf(x.cfg.sf.path(k)), SF.Starting))
  {
    var p := x.cfg.sf.path(k);
    DirsFit(p);
    PutStarts(x, k);
    MakesDirs(x, FirstPut(x, k, EMPTY, SF.Starting), 0, SF.Put(k, x.f(k), Some(0), SF.Starting), SW.DirsOf(p));
    FirstPutMoves(x, k, EMPTY, SF.Starting, SW.DirsOf(p), SF.Starting);
  }

  lemma MakesDirs(x: Scene, s: State, c: nat, th: SF.Thread, fs: Fs)
    requires Reached(x, s) && th.Put? && th.put.Starting? && s.At(c) == th && !s.up.phase.Crashed?
    requires x.cfg.sf.path(th.key) != []
    requires
      var p := x.cfg.sf.path(th.key);
      p[..|p| - 1] < p && s.fs.CanMakeDirs(p[..|p| - 1]) && s.fs.MakeDirs(p[..|p| - 1]) == fs
    ensures Reached(x, With(x, s, c, fs, th))
  {
    var p := x.cfg.sf.path(th.key);
    Writes(x, s, c, SF.MakeDirs(p[..|p| - 1]), SF.Move(th, fs, None));
  }

  /** ... reaches its rename, */
  lemma PutLocks(x: Scene, k: Key)
    requires Fits(x, k)
    ensures
      var p := x.cfg.sf.path(k);
      Reached(x, FirstPut(x, k, Added(SW.DirsOf(p), Tmp(p), x.f(k)), SF.Locked(0)))
  {
    var p := x.cfg.sf.path(k);
    SW.DirsOfAre(p);
    PutBegins(x, k);
    var _ := WriterReachesRename(x, FirstPut(x, k, SW.DirsOf(p), SF.Starting), 0,
                                 SF.Put(k, x.f(k), Some(0), SF.Starting));
    FirstPutMoves(x, k, SW.DirsOf(p), SF.Starting, Added(SW.DirsOf(p), Tmp(p), x.f(k)), SF.Locked(0));
  }

  lemma EntryRenamed(x: Scene, k: Key)
    requires x.cfg.sf.path(k) != []
    ensures
      var p := x.cfg.sf.path(k);
      var fs := Added(SW.DirsOf(p), Tmp(p), x.f(k));
      fs.CanRename(Tmp(p), p) && fs.Rename(Tmp(p), p) == Entry(x, k)
  {
    var p := x.cfg.sf.path(k);
    SW.DirsOfAre(p);
    var fs := Added(SW.DirsOf(p), Tmp(p), x.f(k));
    assert fs.Rename(Tmp(p), p).dir == map[p := 0];
    assert fs.data == map[0 := x.f(k)];
  }

  /** ... lands, */
  lemma PutLands(x: Scene, k: Key) returns (s: State)
    requires Fits(x, k)
    ensures Reached(x, s)
    ensures s == State(Entry(x, k), map[0 := SF.Idle],
      Upload(x, k, Shown(x.cfg.sf, Entry(x, k)), Up.Stored(k), []))
  {
    var p, th := x.cfg.sf.path(k), SF.Put(k, x.f(k), Some(0), SF.Locked(0));
    EntryRenamed(x, k);
    PutLocks(x, k);
    s := WriterRenames(x, FirstPut(x, k, Added(SW.DirsOf(p), Tmp(p), x.f(k)), SF.Locked(0)), 0, th, Entry(x, k));
    assert map[0 := th][0 := SF.Idle] == map[0 := SF.Idle];
    StoredUpload(x, k, Added(SW.DirsOf(p), Tmp(p), x.f(k)), Shown(x.cfg.sf, Entry(x, k)));
  }

  lemma StoredUpload(x: Scene, k: Key, fs: Fs, local: map<Key, Bytes>)
    ensures FirstPut(x, k, fs, SF.Locked(0)).up.(local := local).Goto(0, Up.Stored(k))
         == Upload(x, k, local, Up.Stored(k), [])
  {
    assert Fetchers(x, k)[0 := Up.Stored(k)] == Upload(x, k, map[], Up.Stored(k), []).clients;
  }

  /** A step of the upload machine elsewhere. */
  lemma UpStep(x: Scene, s: State, l: Up.Label, up: Up.State)
    requires Reached(x, s) && Up.Next(x.cfg.up, s.up, l) == Some(up)
    requires Elsewhere(l) && !l.Fetch? && !l.DeleteS3?
    ensures Reached(x, s.(up := up))
  {
    Step(x, s, Other(l), s.(up := up));
  }

  /** ... and is queued and acknowledged. */
  lemma PutIsQueued(x: Scene, k: Key) returns (s: State)
    requires Fits(x, k)
    ensures Reached(x, s)
    ensures s == State(Entry(x, k), map[0 := SF.Idle],
      Upload(x, k, Shown(x.cfg.sf, Entry(x, k)), Up.Away, [Up.Item(0, k, 0)]))
  {
    var stored := PutLands(x, k);
    var local := Shown(x.cfg.sf, Entry(x, k));
    CheckLands(x, k, local);
    UpStep(x, stored, Up.CheckRunning(0), Upload(x, k, local, Up.Admitted(k), []));
    SendLands(x, k, local);
    s := stored.(up := Upload(x, k, local, Up.Away, [Up.Item(0, k, 0)]));
    UpStep(x, stored.(up := Upload(x, k, local, Up.Admitted(k), [])), Up.Send(0), s.up);
  }

  lemma CheckLands(x: Scene, k: Key, local: map<Key, Bytes>)
    ensures Up.Next(x.cfg.up, Upload(x, k, local, Up.Stored(k), []), Up.CheckRunning(0))
         == Some(Upload(x, k, local, Up.Admitted(k), []))
  {
    var s := Upload(x, k, local, Up.Stored(k), []);
    assert s.clients[0 := Up.Admitted(k)] == Upload(x, k, local, Up.Admitted(k), []).clients;
  }

  lemma SendLands(x: Scene, k: Key, local: map<Key, Bytes>)
    requires x.cfg.up.capacity >= 1
    ensures Up.Next(x.cfg.up, Upload(x, k, local, Up.Admitted(k), []), Up.Send(0))
         == Some(Upload(x, k, local, Up.Away, [Up.Item(0, k, 0)]))
  {
    var s := Upload(x, k, local, Up.Admitted(k), []);
    assert s.clients[0 := Up.Away] == Upload(x, k, local, Up.Away, []).clients;
    assert {} + {k} == {k} && [] + [Up.Item(0, k, 0)] == [Up.Item(0, k, 0)];
  }

  // ---- the overlap ----

  /** Which client makes the first and the second of the two local writes, by kind. */
  function Client(kind: Writer, second: bool): nat {
    if kind.ByFill? then (if second then 2 else 1) else (if second then 4 else 3)
  }

  function Via(kind: Writer): Option<nat> { if kind.ByPut? then Some(0) else None }

  /** A local write of k by a client of either kind begins. */
  lemma WriterBegins(x: Scene, k: Key, s: State, kind: Writer, second: bool) returns (s': State)
    requires Fits(x, k) && Reached(x, s) && s.At(Client(kind, second)).Idle? && s.up.phase.Running?
    requires
      var c := Client(kind, second);
      if kind.ByPut? then s.up.At(c).Away? else s.up.At(c) == Up.Fetched(k, x.f(k))
    ensures Reached(x, s')
    ensures s' == s.(writers := s.writers[Client(kind, second) := SF.Put(k, x.f(k), Via(kind), SF.Starting)])
  {
    var c := Client(kind, second);
    s' := s.(writers := s.writers[c := SF.Put(k, x.f(k), Via(kind), SF.Starting)]);
    Step(x, s, if kind.ByPut? then BeginPut(c, k, x.f(k)) else BeginFill(c), s');
  }

  /** The files when a second tmp file of k, of content c, is there beside its entry, and once it is renamed. */
  function Beside(x: Scene, k: Key, c: Bytes): Fs
    requires x.cfg.sf.path(k) != []
  {
    Fs(map[x.cfg.sf.path(k) := 0, Tmp(x.cfg.sf.path(k)) := 1], map[0 := x.f(k), 1 := c], 2, Entry(x, k).dirs)
  }

  function Torn(x: Scene, k: Key): Fs
    requires x.cfg.sf.path(k) != []
  {
    Fs(map[x.cfg.sf.path(k) := 1], map[0 := x.f(k), 1 := []], 2, Entry(x, k).dirs)
  }

  lemma TornFiles(x: Scene, k: Key)
    requires x.cfg.sf.path(k) != []
    ensures
      var p := x.cfg.sf.path(k);
      var tmp, first, cut := Tmp(p), Beside(x, k, x.f(k)), Beside(x, k, []);
      && Entry(x, k).CanCreate(tmp) && tmp !in Entry(x, k).dir && Added(Entry(x, k), tmp, x.f(k)) == first
      && first.CanCreate(tmp) && first.Create(tmp) == cut && first.CreatedInode(tmp) == 1
      && cut.CanRename(tmp, p) && cut.Rename(tmp, p) == Torn(x, k)
  {
    var p := x.cfg.sf.path(k);
    SW.DirsOfAre(p);
    assert Added(Entry(x, k), Tmp(p), x.f(k)).dir == Beside(x, k, x.f(k)).dir;
    assert Added(Entry(x, k), Tmp(p), x.f(k)).data == Beside(x, k, x.f(k)).data;
    assert Beside(x, k, x.f(k)).data[1 := []] == Beside(x, k, []).data;
    assert Beside(x, k, []).Rename(Tmp(p), p).dir == Torn(x, k).dir;
  }

  /** The state when the first of two local writes of k is at pc, with the files fs. */
  function One(x: Scene, k: Key, fs: Fs, first: Writer, pc: SF.PutPc): State {
    State(fs, map[0 := SF.Idle, Client(first, false) := SF.Put(k, x.f(k), Via(first), pc)],
      Upload(x, k, Shown(x.cfg.sf, fs), Up.Away, [Up.Item(0, k, 0)]))
  }

  /** ... and when the second is at pc and the first is about to rename. */
  function Two(x: Scene, k: Key, fs: Fs, first: Writer, second: Writer, pc: SF.PutPc): State {
    State(fs, map[0 := SF.Idle, Client(first, false) := SF.Put(k, x.f(k), Via(first), SF.Locked(1)),
        Client(second, true) := SF.Put(k, x.f(k), Via(second), pc)],
      Upload(x, k, Shown(x.cfg.sf, fs), Up.Away, [Up.Item(0, k, 0)]))
  }

  lemma OneMoves(x: Scene, k: Key, fs: Fs, first: Writer, pc: SF.PutPc, fs': Fs, pc': SF.PutPc)
    ensures With(x, One(x, k, fs, first, pc), Client(first, false), fs', SF.Put(k, x.f(k), Via(first), pc'))
         == One(x, k, fs', first, pc')
  {
    var c, th' := Client(first, false), SF.Put(k, x.f(k), Via(first), pc');
    assert One(x, k, fs, first, pc).writers[c := th'] == map[0 := SF.Idle, c := th'];
  }

  lemma TwoMoves(x: Scene, k: Key, fs: Fs, first: Writer, second: Writer, pc: SF.PutPc, fs': Fs, pc': SF.PutPc)
    ensures With(x, Two(x, k, fs, first, second, pc), Client(second, true), fs', SF.Put(k, x.f(k), Via(second), pc'))
         == Two(x, k, fs', first, second, pc')
  {
    var c, th' := Client(second, true), SF.Put(k, x.f(k), Via(second), pc');
    assert Two(x, k, fs, first, second, pc).writers[c := th'] == Two(x, k, fs', first, second, pc').writers;
  }

  /** The first of two local writes of k begins, */
  lemma FirstBegins(x: Scene, k: Key, first: Writer)
    requires Fits(x, k)
    ensures Reached(x, One(x, k, Entry(x, k), first, SF.Starting))
  {
    var queued := PutIsQueued(x, k);
    var begun := WriterBegins(x, k, queued, first, false);
    assert begun.writers == One(x, k, Entry(x, k), first, SF.Starting).writers;
  }

  /** ... and is about to rename */
  lemma FirstLocks(x: Scene, k: Key, first: Writer)
    requires Fits(x, k)
    ensures Reached(x, One(x, k, Beside(x, k, x.f(k)), first, SF.Locked(1)))
  {
    TornFiles(x, k);
    FirstBegins(x, k, first);
    var _ := WriterReachesRename(x, One(x, k, Entry(x, k), first, SF.Starting), Client(first, false),
                                 SF.Put(k, x.f(k), Via(first), SF.Starting));
    OneMoves(x, k, Entry(x, k), first, SF.Starting, Beside(x, k, x.f(k)), SF.Locked(1));
  }

  /** ... when the second begins */
  lemma SecondBegins(x: Scene, k: Key, first: Writer, second: Writer)
    requires Fits(x, k)
    ensures Reached(x, Two(x, k, Beside(x, k, x.f(k)), first, second, SF.Starting))
  {
    FirstLocks(x, k, first);
    var begun := WriterBegins(x, k, One(x, k, Beside(x, k, x.f(k)), first, SF.Locked(1)), second, true);
    assert begun.writers == Two(x, k, Beside(x, k, x.f(k)), first, second, SF.Starting).writers;
  }

  /** ... and truncates its tmp file, */
  lemma SecondTruncates(x: Scene, k: Key, first: Writer, second: Writer)
    requires Fits(x, k) && (second, first) in x.allowed
    ensures Reached(x, Two(x, k, Beside(x, k, []), first, second, SF.Copying(1, 0)))
  {
    TornFiles(x, k);
    SecondBegins(x, k, first, second);
    var begun := Two(x, k, Beside(x, k, x.f(k)), first, second, SF.Starting);
    var th := SF.Put(k, x.f(k), Via(second), SF.Starting);
    OnlyFirstWrites(x, k, first, second);
    var _ := Truncates(x, begun, Client(second, true), th, Client(first, false), Beside(x, k, []), 1);
    TwoMoves(x, k, Beside(x, k, x.f(k)), first, second, SF.Starting, Beside(x, k, []), SF.Copying(1, 0));
  }

  lemma OnlyFirstWrites(x: Scene, k: Key, first: Writer, second: Writer)
    requires x.cfg.sf.path(k) != []
    ensures
      var begun := Two(x, k, Beside(x, k, x.f(k)), first, second, SF.Starting);
      var c, u := Client(second, true), Client(first, false);
      && begun.At(c) == SF.Put(k, x.f(k), Via(second), SF.Starting) && By(begun.At(c)) == second
      && u in begun.writers && begun.writers[u].Put? && By(begun.writers[u]) == first
      && forall v :: v in begun.writers && v != c && v != u ==> !SF.Writing(begun.writers[v])
  {
  }

  /** A local write creates its tmp file where client u, that may be overlapped, writes its own. */
  lemma Truncates(x: Scene, s: State, c: nat, th: SF.Thread, u: nat, fs: Fs, n: nat) returns (s': State)
    requires Reached(x, s) && th.Put? && s.At(c) == th && th.put.Starting? && !s.up.phase.Crashed?
    requires u in s.writers && s.writers[u].Put? && (By(th), By(s.writers[u])) in x.allowed
    requires forall v :: v in s.writers && v != c && v != u ==> !SF.Writing(s.writers[v])
    requires s.fs.CanCreate(Tmp(x.cfg.sf.path(th.key))) && s.fs.CreatedInode(Tmp(x.cfg.sf.path(th.key))) == n
    requires s.fs.Create(Tmp(x.cfg.sf.path(th.key))) == fs
    ensures Reached(x, s') && s' == With(x, s, c, fs, th.(put := SF.Copying(n, 0)))
  {
    var m := SF.Move(th.(put := SF.Copying(n, 0)), fs, None);
    Writes(x, s, c, SF.CreateTmp(true), m);
    s' := Landed(x.cfg, s, c, m);
  }

  /** Where the clients are once the first local write has returned. */
  function AfterFirst(x: Scene, k: Key, first: Writer): map<nat, Up.Client> {
    Upload(x, k, map[], Up.Away, []).clients[Client(first, false) := if first.ByPut? then Up.Stored(k) else Up.Away]
  }

  /** ... which the first then publishes, */
  lemma FirstPublishes(x: Scene, k: Key, first: Writer, second: Writer) returns (s: State)
    requires Fits(x, k) && (second, first) in x.allowed
    ensures Reached(x, s) && s.fs == Torn(x, k)
    ensures s.At(Client(second, true)) == SF.Put(k, x.f(k), Via(second), SF.Copying(1, 0))
    ensures s.up == Upload(x, k, Shown(x.cfg.sf, Torn(x, k)), Up.Away, [Up.Item(0, k, 0)]).(
      clients := AfterFirst(x, k, first))
  {
    TornFiles(x, k);
    SecondTruncates(x, k, first, second);
    s := WriterRenames(x, Two(x, k, Beside(x, k, []), first, second, SF.Copying(1, 0)), Client(first, false),
                       SF.Put(k, x.f(k), Via(first), SF.Locked(1)), Torn(x, k));
  }

  /** ... and the worker uploads. */
  lemma WorkerUploads(x: Scene, s: State, k: Key, b: Bytes) returns (s': State)
    requires Reached(x, s) && s.up.phase.Running? && s.up.queue == [Up.Item(0, k, 0)]
    requires s.up.workers != [] && s.up.workers[0].Idle? && Lookup(s.up.local, k) == Some(b)
    ensures Reached(x, s')
    ensures s'.up == s.up.(queue := [], s3 := s.up.s3[k := b], uploaded := s.up.uploaded + [Up.Item(0, k, 0)])
    ensures s'.fs == s.fs && s'.writers == s.writers
  {
    var it, up := Up.Item(0, k, 0), s.up;
    var held := up.(queue := [], workers := up.workers[0 := Up.Holding(it)]);
    var read := up.(queue := [], workers := up.workers[0 := Up.Uploading(it, b, false)]);
    var taken := up.(queue := [], s3 := up.s3[k := b], workers := up.workers[0 := Up.Uploading(it, b, true)]);
    var done := up.(queue := [], s3 := up.s3[k := b], uploaded := up.uploaded + [it]);
    WorkerTakes(x.cfg.up, up, it, b);
    UpStep(x, s, Up.Take(0), held);
    UpStep(x, s.(up := held), Up.Read(0, true), read);
    UpStep(x, s.(up := read), Up.Apply(0), taken);
    UpStep(x, s.(up := taken), Up.Finish(0, true), done);
    s' := s.(up := done);
  }

  lemma WorkerTakes(cfg: Up.Config, up: Up.State, it: Up.Item, b: Bytes)
    requires up.phase.Running? && up.queue == [it]
    requires up.workers != [] && up.workers[0].Idle? && Lookup(up.local, it.key) == Some(b)
    ensures
      var held := up.(queue := [], workers := up.workers[0 := Up.Holding(it)]);
      var read := up.(queue := [], workers := up.workers[0 := Up.Uploading(it, b, false)]);
      var taken := up.(queue := [], s3 := up.s3[it.key := b], workers := up.workers[0 := Up.Uploading(it, b, true)]);
      var done := up.(queue := [], s3 := up.s3[it.key := b], uploaded := up.uploaded + [it]);
      && Up.Next(cfg, up, Up.Take(0)) == Some(held) && Up.Next(cfg, held, Up.Read(0, true)) == Some(read)
      && Up.Next(cfg, read, Up.Apply(0)) == Some(taken) && Up.Next(cfg, taken, Up.Finish(0, true)) == Some(done)
  {
    var workers := up.workers;
    assert [it][1..] == [];
    assert workers[0 := Up.Holding(it)][0 := Up.Uploading(it, b, false)] == workers[0 := Up.Uploading(it, b, false)];
    assert workers[0 := Up.Uploading(it, b, false)][0 := Up.Uploading(it, b, true)]
        == workers[0 := Up.Uploading(it, b, true)];
    assert workers[0 := Up.Uploading(it, b, true)][0 := Up.Idle] == workers;
  }

  /** S3 loses the acknowledged bytes of k, which it had to begin with: an emptied file has been uploaded over them. */
  lemma TornUpload(x: Scene, k: Key, first: Writer, second: Writer) returns (s: State)
    requires Fits(x, k) && (second, first) in x.allowed
    ensures Reached(x, s) && k in s.up.acked && Lookup(s.up.s3, k) == Some([]) && !Secured(x.f, s.up, k)
    ensures s.fs == Torn(x, k) && s.At(Client(second, true)) == SF.Put(k, x.f(k), Via(second), SF.Copying(1, 0))
    ensures s.up.clients == AfterFirst(x, k, first) && s.up.phase.Running? && s.up.failed == {}
  {
    var torn := FirstPublishes(x, k, first, second);
    assert Lookup(torn.up.local, k) == Some([]);
    s := WorkerUploads(x, torn, k, []);
    IdleHoldNothing(x.cfg.up.workers, k);
  }

  /**
    When the second then copies its body into the file that is published already, the entry is whole again
    and S3 keeps the empty one, with nothing left to upload and nothing lost.
   */
  lemma TornThenWhole(x: Scene, k: Key, second: Writer) returns (s: State)
    requires Fits(x, k) && (second, ByFill) in x.allowed
    ensures Reached(x, s) && AC.Settled(s.up, k) && !AC.Lost(s.up, k)
    ensures s.fs.Content(x.cfg.sf.path(k)) == Some(x.f(k)) && Lookup(s.up.s3, k) == Some([])
  {
    var torn := TornUpload(x, k, ByFill, second);
    var c, th := Client(second, true), SF.Put(k, x.f(k), Via(second), SF.Copying(1, 0));
    s := WriterCopies(x, torn, c, th, 1);
    NothingAhead(x, torn.up, s.up, k);
  }

  /** Nothing of k is left to upload, whatever has become of the local tier. */
  lemma NothingAhead(x: Scene, torn: Up.State, up: Up.State, k: Key)
    requires !Secured(x.f, torn, k) && torn.clients == AfterFirst(x, k, ByFill) && torn.failed == {}
    requires up == torn.(local := up.local)
    ensures AC.Settled(up, k) && !AC.Lost(up, k)
  {
    forall w | 0 <= w < |torn.workers| ensures !AC.WorkerHas(torn.workers[w], k) { assert !AA.InHand(torn.workers, k); }
  }

  lemma IdleHoldNothing(n: nat, k: Key)
    ensures !AA.InHand(seq(n, _ => Up.Idle), k)
  {
  }

  // ---- exactly ----

  /** In every content-addressed run with only these overlaps, the files, S3 and the acknowledged keys are intact. */
  ghost predicate AlwaysIntact(cfg: Config, f: Key -> Bytes, allowed: set<(Writer, Writer)>) {
    forall fs, s3, run, s ::
      && SP.FsInv(cfg.sf, fs, map[]) && AD.Holds(f, Shown(cfg.sf, fs)) && AD.Holds(f, s3)
      && Exec(cfg, Init(cfg, fs, s3), run) == Some(s) && RunOverlaps(cfg, Init(cfg, fs, s3), run, allowed)
      && AddressedRun(f, run)
      ==> Intact(cfg, f, s)
  }

  /**
    Over separate keys of which some is not empty: every content-addressed run is intact exactly when no two
    local writes of one key may overlap, be it two Puts, two backfills, or a Put and a backfill in either order.
   */
  lemma IntactExactly(cfg: Config, f: Key -> Bytes, allowed: set<(Writer, Writer)>, k: Key)
    requires SF.Separate(cfg.sf) && cfg.up.Valid() && k in cfg.sf.keys && f(k) != []
    ensures AlwaysIntact(cfg, f, allowed) <==> allowed == {}
  {
    if allowed == {} {
      forall fs, s3, run, s |
        && SP.FsInv(cfg.sf, fs, map[]) && AD.Holds(f, Shown(cfg.sf, fs)) && AD.Holds(f, s3)
        && Exec(cfg, Init(cfg, fs, s3), run) == Some(s) && RunOverlaps(cfg, Init(cfg, fs, s3), run, {})
        && AddressedRun(f, run)
        ensures Intact(cfg, f, s)
      {
        FilesDurable(cfg, f, fs, s3, run, s);
      }
    } else {
      var pair :| pair in allowed;
      TornIsNotIntact(Scene(cfg, f, map[k := f(k)], allowed), k, pair.1, pair.0);
    }
  }

  lemma TornIsNotIntact(x: Scene, k: Key, first: Writer, second: Writer)
    requires Fits(x, k) && (second, first) in x.allowed
    ensures !AlwaysIntact(x.cfg, x.f, x.allowed)
  {
    var s := TornUpload(x, k, first, second);
    var run :| Led(x, run, s);
    assert !Intact(x.cfg, x.f, s);
    assert SP.IsAbove(x.cfg.sf, []);
    assert SP.FsInv(x.cfg.sf, EMPTY, map[]);
    assert Shown(x.cfg.sf, EMPTY) == map[];
  }
}
