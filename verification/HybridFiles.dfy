/**
  The hybrid backend with asynchronous upload over the files of the local backend. A client's Put and the backfill
  of a Get each write the local tier by the file-system steps of Local.Put, under the locks of the key's shard,
  while everything else goes on; every other access of the local tier is one step that looks at the files.
 */
module HybridFiles {
  import opened Base
  import opened FileSystem
  import History
  import SF = SingleFlightLocal
  import SP = SingleFlightLocalProofs
  import Up = AsyncUpload
  import AC = AsyncConvergence

  datatype Config = Config(sf: SF.Config, up: Up.Config)

  /**
    writers holds, by client, the local writes under way: of a Put when it has a flight, of a backfill when it
    has none. up.local is what the files show.
   */
  datatype State = State(fs: Fs, writers: map<nat, SF.Thread>, up: Up.State) {
    function At(c: nat): SF.Thread { if c in writers then writers[c] else SF.Idle }
  }

  /** What the files show at the keys. */
  function Shown(cfg: SF.Config, fs: Fs): map<Key, Bytes> {
    map k | k in cfg.keys && fs.Content(cfg.path(k)).Some? :: fs.Content(cfg.path(k)).value
  }

  function Init(cfg: Config, fs: Fs, s3: map<Key, Bytes>): State {
    State(fs, map[], Up.Init(cfg.up, Shown(cfg.sf, fs), s3))
  }

  datatype Label =
    | BeginPut(c: nat, key: Key, body: Bytes)
    | BeginFill(c: nat)
    | Write(c: nat, act: SF.Act)
    | Evict(file: Path, entry: Option<Key>)
    | Unlink(key: Key)
    | Other(l: Up.Label)

  /** The steps of the upload machine that do not change the local tier. */
  predicate Elsewhere(l: Up.Label) { !l.PutLocal? && !l.Fill? && !l.Evict? && !l.DeleteLocal? }

  /** Where the client goes when its local write has returned. */
  function Returned(th: SF.Thread): Up.Client
    requires th.Put? && th.put.PutDone?
  {
    if th.via.Some? && th.put.ok then Up.Stored(th.key) else Up.Away
  }

  /** After a file step of client c's local write. A Put whose local write fails has done nothing else. */
  function Landed(cfg: Config, s: State, c: nat, m: SF.Move): State
    requires m.th.Put?
  {
    var up := s.up.(local := Shown(cfg.sf, m.fs));
    if !m.th.put.PutDone? then State(m.fs, s.writers[c := m.th], up)
    else
      var up' := if m.th.via.Some? && !m.th.put.ok then up else up.Goto(c, Returned(m.th));
      State(m.fs, s.writers[c := SF.Idle], up')
  }

  function WriteMove(cfg: Config, s: State, c: nat, act: SF.Act): Option<SF.Move> {
    if !s.At(c).Put? || !SF.Admitted(cfg.sf, s.writers, s.At(c), act) then None
    else SF.PutStep(cfg.sf.path, s.fs, c, s.At(c), act)
  }

  function Next(cfg: Config, s: State, l: Label): Option<State> {
    if s.up.phase.Crashed? then None
    else
      match l
      case BeginPut(c, k, b) =>
        if s.up.At(c).Away? && s.At(c).Idle? && k in cfg.sf.keys then
          Some(s.(writers := s.writers[c := SF.Put(k, b, Some(0), SF.Starting)]))
        else None
      case BeginFill(c) =>
        if s.up.At(c).Fetched? && s.At(c).Idle? && s.up.At(c).key in cfg.sf.keys then
          Some(s.(writers := s.writers[c := SF.Put(s.up.At(c).key, s.up.At(c).body, None, SF.Starting)]))
        else None
      case Write(c, act) =>
        var m := WriteMove(cfg, s, c, act);
        if m.Some? && m.value.th.Put? then Some(Landed(cfg, s, c, m.value)) else None
      case Evict(p, entry) =>
        if p !in s.fs.dir || !SF.Names(cfg.sf, p, entry) then None
        else Some(State(s.fs.Remove(p), s.writers, s.up.(local := Shown(cfg.sf, s.fs.Remove(p)))))
      case Unlink(k) =>
        if k !in cfg.sf.keys || !s.fs.CanRemove(cfg.sf.path(k)) then None
        else
          var fs := s.fs.Remove(cfg.sf.path(k));
          Some(State(fs, s.writers, s.up.(local := Shown(cfg.sf, fs))))
      case Other(l) =>
        if !Elsewhere(l) || (l.Fetch? && !s.At(l.c).Idle?) || Up.Next(cfg.up, s.up, l).None? then None
        else Some(s.(up := Up.Next(cfg.up, s.up, l).value))
  }

  function Exec(cfg: Config, s: State, run: seq<Label>): Option<State>
    decreases |run|
  {
    if run == [] then Some(s)
    else
      var mid := Exec(cfg, s, run[..|run| - 1]);
      if mid.None? then None else Next(cfg, mid.value, run[|run| - 1])
  }

  // ---- local writes of one key that overlap ----

  datatype Writer = ByPut | ByFill

  function By(th: SF.Thread): Writer
    requires th.Put?
  {
    if th.via.Some? then ByPut else ByFill
  }

  /**
    When the step creates a tmp file while another local write of the key is writing its own, the pair of the
    one that creates and the one that writes is among `allowed`.
   */
  ghost predicate Overlaps(s: State, l: Label, allowed: set<(Writer, Writer)>) {
    l.Write? && l.act == SF.CreateTmp(true) && s.At(l.c).Put? ==>
      forall u :: u in s.writers && u != l.c && SF.Writing(s.writers[u]) && s.writers[u].key == s.At(l.c).key
        ==> (By(s.At(l.c)), By(s.writers[u])) in allowed
  }

  ghost predicate RunOverlaps(cfg: Config, s: State, run: seq<Label>, allowed: set<(Writer, Writer)>)
    decreases |run|
  {
    run == [] ||
    var mid := Exec(cfg, s, run[..|run| - 1]);
    mid.Some? && RunOverlaps(cfg, s, run[..|run| - 1], allowed) && Overlaps(mid.value, run[|run| - 1], allowed)
  }

  // ---- the upload machine sees each local write as one step ----

  /** The step of the upload machine, if any, that a step here is: a local write happens at its rename. */
  function Seen(cfg: Config, s: State, l: Label): Option<Up.Label> {
    match l
    case Write(c, act) =>
      var th := s.At(c);
      var m := WriteMove(cfg, s, c, act);
      if m.None? || !m.value.th.Put? || !m.value.th.put.PutDone? then None
      else if th.via.None? then Some(Up.Fill(c, m.value.th.put.ok))
      else if m.value.th.put.ok then Some(Up.PutLocal(c, th.key, th.body)) else None
    case Evict(_, Some(k)) => Some(Up.Evict(k))
    case Unlink(k) => Some(Up.DeleteLocal(k))
    case Other(l) => Some(l)
    case _ => None
  }

  function RunSeen(cfg: Config, s: State, run: seq<Label>): seq<Up.Label>
    decreases |run|
  {
    if run == [] then []
    else
      var mid := Exec(cfg, s, run[..|run| - 1]);
      var rest := RunSeen(cfg, s, run[..|run| - 1]);
      if mid.None? || Seen(cfg, mid.value, run[|run| - 1]).None? then rest
      else rest + [Seen(cfg, mid.value, run[|run| - 1]).value]
  }

  /** A Put's client is away from the upload machine while it writes; a backfill's has fetched what it writes. */
  ghost predicate Linked(s: State, c: nat) {
    match s.At(c)
    case Idle => true
    case Put(k, b, via, pc) =>
      !pc.PutDone? && if via.Some? then s.up.At(c).Away? else s.up.At(c) == Up.Fetched(k, b)
    case _ => false
  }

  ghost predicate Inv(cfg: Config, s: State) {
    && SP.FsInv(cfg.sf, s.fs, s.writers)
    && SP.Shows(cfg.sf, s.fs, s.up.local)
    && forall c: nat :: Linked(s, c)
  }

  lemma ShowsShown(cfg: SF.Config, fs: Fs, m: map<Key, Bytes>)
    requires SP.Shows(cfg, fs, m)
    ensures m == Shown(cfg, fs)
  {
    forall k ensures k in m <==> k in Shown(cfg, fs)
      ensures k in m ==> m[k] == Shown(cfg, fs)[k]
    {
      assert SP.ShowsAt(cfg, fs, m, k);
    }
  }

  lemma ShownShows(cfg: SF.Config, fs: Fs)
    ensures SP.Shows(cfg, fs, Shown(cfg, fs))
  {
    forall k ensures SP.ShowsAt(cfg, fs, Shown(cfg, fs), k) { }
  }

  /** The writers as a state of the single-flight machine. */
  function Threads(s: State): SF.State { SF.State(s.fs, SF.Table(map[], map[], 0), s.writers, History.Empty) }

  /** What a file step does to the files, the invariant and the view. */
  lemma WriteFiles(cfg: Config, s: State, c: nat, act: SF.Act, m: SF.Move)
    requires SF.Separate(cfg.sf) && Inv(cfg, s) && Overlaps(s, Write(c, act), {})
    requires WriteMove(cfg, s, c, act) == Some(m)
    ensures m.th.Put? && m.th.(put := s.At(c).put) == s.At(c)
    ensures SP.FsInv(cfg.sf, m.fs, s.writers[c := m.th]) && SP.FsInv(cfg.sf, m.fs, s.writers[c := SF.Idle])
    ensures Shown(cfg.sf, m.fs) ==
      if act == SF.RenameTmp(true) then s.up.local[s.At(c).key := s.At(c).body] else s.up.local
    ensures SP.Shows(cfg.sf, m.fs, Shown(cfg.sf, m.fs))
    ensures m.th.put == SF.PutDone(true) <==> act == SF.RenameTmp(true)
  {
    SP.PutMoves(cfg.sf.path, s.fs, c, s.At(c), act, m);
    WriteKeeps(cfg, s, c, act, m);
    WriterRests(cfg.sf, m.fs, s.writers, c, m.th);
    ShowsShown(cfg.sf, m.fs, SP.MapAfter(s.up.local, s.At(c), act));
    ShownShows(cfg.sf, m.fs);
  }

  lemma WriteKeeps(cfg: Config, s: State, c: nat, act: SF.Act, m: SF.Move)
    requires SF.Separate(cfg.sf) && SP.FsInv(cfg.sf, s.fs, s.writers) && SP.Shows(cfg.sf, s.fs, s.up.local)
    requires Overlaps(s, Write(c, act), {}) && WriteMove(cfg, s, c, act) == Some(m)
    ensures SP.FsInv(cfg.sf, m.fs, s.writers[c := m.th])
    ensures SP.Shows(cfg.sf, m.fs, SP.MapAfter(s.up.local, s.At(c), act))
  {
    SP.FsAct(cfg.sf, Threads(s), c, act, m, s.up.local);
  }

  lemma WriterRests(cfg: SF.Config, fs: Fs, writers: map<nat, SF.Thread>, c: nat, th: SF.Thread)
    requires SP.FsInv(cfg, fs, writers[c := th])
    ensures SP.FsInv(cfg, fs, writers[c := SF.Idle])
  {
    SP.FsMove(cfg, fs, writers[c := th], c, SF.Idle, fs);
    assert writers[c := th][c := SF.Idle] == writers[c := SF.Idle];
  }

  lemma LandedLinked(cfg: Config, s: State, c: nat, m: SF.Move, d: nat)
    requires s.At(c).Put? && m.th.Put? && m.th.(put := s.At(c).put) == s.At(c) && Linked(s, c) && Linked(s, d)
    ensures Linked(Landed(cfg, s, c, m), d)
  {
  }

  /** The return of a local write is one step of the upload machine, or none. */
  lemma ReturnIsStep(cfg: Config, s: State, c: nat, m: SF.Move)
    requires s.At(c).Put? && m.th.Put? && m.th.(put := s.At(c).put) == s.At(c) && Linked(s, c)
    requires m.th.put.PutDone? && !s.up.phase.Crashed?
    requires Shown(cfg.sf, m.fs) == if m.th.put.ok then s.up.local[s.At(c).key := s.At(c).body] else s.up.local
    ensures
      var th, up' := s.At(c), Landed(cfg, s, c, m).up;
      if th.via.None? then Up.Next(cfg.up, s.up, Up.Fill(c, m.th.put.ok)) == Some(up')
      else if m.th.put.ok then Up.Next(cfg.up, s.up, Up.PutLocal(c, th.key, th.body)) == Some(up')
      else up' == s.up
  {
  }

  lemma WriteIsSeen(cfg: Config, s: State, c: nat, act: SF.Act, s': State)
    requires SF.Separate(cfg.sf) && Inv(cfg, s) && Overlaps(s, Write(c, act), {})
    requires Next(cfg, s, Write(c, act)) == Some(s')
    ensures Inv(cfg, s') && SeenAs(cfg, s, Write(c, act), s')
  {
    var m := WriteMove(cfg, s, c, act).value;
    WriteFiles(cfg, s, c, act, m);
    AllLinked(cfg, s, c, m);
    LandedInv(cfg, s, c, m);
    LandedIsSeen(cfg, s, c, act, m);
  }

  lemma AllLinked(cfg: Config, s: State, c: nat, m: SF.Move)
    requires s.At(c).Put? && m.th.Put? && m.th.(put := s.At(c).put) == s.At(c) && forall d: nat :: Linked(s, d)
    ensures forall d: nat :: Linked(Landed(cfg, s, c, m), d)
  {
    forall d: nat ensures Linked(Landed(cfg, s, c, m), d) { LandedLinked(cfg, s, c, m, d); }
  }

  lemma LandedIsSeen(cfg: Config, s: State, c: nat, act: SF.Act, m: SF.Move)
    requires WriteMove(cfg, s, c, act) == Some(m) && !s.up.phase.Crashed?
    requires s.At(c).Put? && m.th.Put? && m.th.(put := s.At(c).put) == s.At(c) && Linked(s, c)
    requires m.th.put == SF.PutDone(true) <==> act == SF.RenameTmp(true)
    requires Shown(cfg.sf, m.fs) ==
      if act == SF.RenameTmp(true) then s.up.local[s.At(c).key := s.At(c).body] else s.up.local
    ensures SeenAs(cfg, s, Write(c, act), Landed(cfg, s, c, m))
  {
    if m.th.put.PutDone? { ReturnIsStep(cfg, s, c, m); }
  }

  lemma LandedInv(cfg: Config, s: State, c: nat, m: SF.Move)
    requires m.th.Put? && SP.Shows(cfg.sf, m.fs, Shown(cfg.sf, m.fs))
    requires SP.FsInv(cfg.sf, m.fs, s.writers[c := m.th]) && SP.FsInv(cfg.sf, m.fs, s.writers[c := SF.Idle])
    requires forall d: nat :: Linked(Landed(cfg, s, c, m), d)
    ensures Inv(cfg, Landed(cfg, s, c, m)) && Landed(cfg, s, c, m).up.local == Shown(cfg.sf, m.fs)
  {
  }

  /** The step is one of the upload machine, or changes nothing there. */
  ghost predicate SeenAs(cfg: Config, s: State, l: Label, s': State) {
    var seen := Seen(cfg, s, l);
    if seen.None? then s'.up == s.up else Up.Next(cfg.up, s.up, seen.value) == Some(s'.up)
  }

  lemma EvictIsSeen(cfg: Config, s: State, p: Path, entry: Option<Key>, s': State)
    requires SF.Separate(cfg.sf) && Inv(cfg, s) && Next(cfg, s, Evict(p, entry)) == Some(s')
    ensures Inv(cfg, s') && SeenAs(cfg, s, Evict(p, entry), s')
  {
    RemovalShown(cfg, s, p, entry);
    StillLinked(s, s');
    EvictIsStep(cfg, s, p, entry, s');
  }

  lemma EvictIsStep(cfg: Config, s: State, p: Path, entry: Option<Key>, s': State)
    requires Next(cfg, s, Evict(p, entry)) == Some(s')
    requires Shown(cfg.sf, s.fs.Remove(p)) == s.up.local - (if entry.Some? then {entry.value} else {})
    ensures SeenAs(cfg, s, Evict(p, entry), s')
  {
    assert s.up.local - {} == s.up.local;
  }

  lemma StillLinked(s: State, s': State)
    requires s'.writers == s.writers && s'.up.clients == s.up.clients && forall d: nat :: Linked(s, d)
    ensures forall d: nat :: Linked(s', d)
  {
    forall d: nat ensures Linked(s', d) { assert Linked(s, d) && s'.At(d) == s.At(d) && s'.up.At(d) == s.up.At(d); }
  }

  /** What the files show after a file, or nothing, is removed. */
  lemma RemovalShown(cfg: Config, s: State, p: Path, entry: Option<Key>)
    requires SF.Separate(cfg.sf) && Inv(cfg, s) && SF.Names(cfg.sf, p, entry)
    ensures SP.FsInv(cfg.sf, s.fs.Remove(p), s.writers)
    ensures Shown(cfg.sf, s.fs.Remove(p)) == s.up.local - (if entry.Some? then {entry.value} else {})
    ensures SP.Shows(cfg.sf, s.fs.Remove(p), Shown(cfg.sf, s.fs.Remove(p)))
  {
    SP.FsRemove(cfg.sf, s.fs, s.writers, p);
    SP.RemoveShows(cfg.sf, s.fs, p, entry, s.up.local);
    ShowsShown(cfg.sf, s.fs.Remove(p), s.up.local - (if entry.Some? then {entry.value} else {}));
    ShownShows(cfg.sf, s.fs.Remove(p));
  }

  lemma UnlinkIsSeen(cfg: Config, s: State, k: Key, s': State)
    requires SF.Separate(cfg.sf) && Inv(cfg, s) && Next(cfg, s, Unlink(k)) == Some(s')
    ensures Inv(cfg, s') && SeenAs(cfg, s, Unlink(k), s')
  {
    RemovalShown(cfg, s, cfg.sf.path(k), Some(k));
    StillLinked(s, s');
  }

  /** A step elsewhere leaves a client that writes where it is, and the local tier alone. */
  lemma ElsewhereLeaves(cfg: Up.Config, s: Up.State, l: Up.Label, s': Up.State, c: nat)
    requires Up.Next(cfg, s, l) == Some(s') && Elsewhere(l)
    ensures s.At(c).Fetched? || (s.At(c).Away? && !(l.Fetch? && l.c == c)) ==> s'.At(c) == s.At(c)
    ensures s'.local == s.local
  {
    if Up.ClientStep(cfg, s, l).Some? {
      ClientElsewhere(cfg, s, l, s', c);
      forall k ensures k in s'.local <==> k in s.local
        ensures k in s.local ==> s'.local[k] == s.local[k]
      {
        AC.ClientLocal(cfg, s, l, s', k);
      }
    } else {
      AC.UploaderKeepsTiers(cfg, s, l, s');
    }
  }

  lemma ClientElsewhere(cfg: Up.Config, s: Up.State, l: Up.Label, s': Up.State, c: nat)
    requires Up.ClientStep(cfg, s, l) == Some(s') && Elsewhere(l)
    ensures s.At(c).Fetched? || (s.At(c).Away? && !(l.Fetch? && l.c == c)) ==> s'.At(c) == s.At(c)
  {
    if l.SyncRead? || l.SyncApply? || l.SyncDone? { SyncElsewhere(cfg, s, l, s', c); }
  }

  lemma SyncElsewhere(cfg: Up.Config, s: Up.State, l: Up.Label, s': Up.State, c: nat)
    requires Up.ClientStep(cfg, s, l) == Some(s') && (l.SyncRead? || l.SyncApply? || l.SyncDone?)
    ensures s.At(c).Fetched? || s.At(c).Away? ==> s'.At(c) == s.At(c)
  {
  }

  lemma OtherIsSeen(cfg: Config, s: State, l: Up.Label, s': State)
    requires Inv(cfg, s) && Next(cfg, s, Other(l)) == Some(s')
    ensures Inv(cfg, s') && SeenAs(cfg, s, Other(l), s')
  {
    ElsewhereLeaves(cfg.up, s.up, l, s'.up, 0);
    forall d: nat ensures Linked(s', d) {
      assert Linked(s, d);
      if s.At(d).Put? { ElsewhereLeaves(cfg.up, s.up, l, s'.up, d); }
    }
  }

  lemma BeginIsSeen(cfg: Config, s: State, l: Label, s': State)
    requires Inv(cfg, s) && (l.BeginPut? || l.BeginFill?) && Next(cfg, s, l) == Some(s')
    ensures Inv(cfg, s') && s'.up == s.up
  {
    SP.FsMove(cfg.sf, s.fs, s.writers, l.c, s'.writers[l.c], s.fs);
    forall d: nat ensures Linked(s', d) { assert Linked(s, d); }
  }

  lemma StepIsSeen(cfg: Config, s: State, l: Label, s': State)
    requires SF.Separate(cfg.sf) && Inv(cfg, s) && Overlaps(s, l, {}) && Next(cfg, s, l) == Some(s')
    ensures Inv(cfg, s') && SeenAs(cfg, s, l, s')
  {
    match l
    case BeginPut(_, _, _) => BeginIsSeen(cfg, s, l, s');
    case BeginFill(_) => BeginIsSeen(cfg, s, l, s');
    case Write(c, act) => WriteIsSeen(cfg, s, c, act, s');
    case Evict(p, entry) => EvictIsSeen(cfg, s, p, entry, s');
    case Unlink(k) => UnlinkIsSeen(cfg, s, k, s');
    case Other(m) => OtherIsSeen(cfg, s, m, s');
  }

  /**
    Over separate keys, every run in which no two local writes of one key overlap is a run of the upload machine,
    where each local write is one step; so whatever holds of all runs of that machine holds of the files.
   */
  lemma {:induction false} Simulates(cfg: Config, fs: Fs, s3: map<Key, Bytes>, run: seq<Label>, s: State)
    requires SF.Separate(cfg.sf) && SP.FsInv(cfg.sf, fs, map[])
    requires Exec(cfg, Init(cfg, fs, s3), run) == Some(s) && RunOverlaps(cfg, Init(cfg, fs, s3), run, {})
    ensures Inv(cfg, s) && s.up.local == Shown(cfg.sf, s.fs)
    ensures Up.Exec(cfg.up, Up.Init(cfg.up, Shown(cfg.sf, fs), s3), RunSeen(cfg, Init(cfg, fs, s3), run)) == Some(s.up)
    decreases |run|
  {
    var init := Init(cfg, fs, s3);
    if run == [] {
      ShownShows(cfg.sf, fs);
    } else {
      var before, l := run[..|run| - 1], run[|run| - 1];
      var mid := Exec(cfg, init, before).value;
      Simulates(cfg, fs, s3, before, mid);
      StepIsSeen(cfg, mid, l, s);
      ShowsShown(cfg.sf, s.fs, s.up.local);
      if Seen(cfg, mid, l).Some? {
        var rest := RunSeen(cfg, init, before);
        assert (rest + [Seen(cfg, mid, l).value])[..|rest|] == rest;
      }
    }
  }
}
