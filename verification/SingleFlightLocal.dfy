/**
  Every interleaving of the single-flight wrapper over the local file store: client calls, flight
  joining and settling, the file-system calls of each operation in the order the code makes them,
  the sharded reader-writer locks, and the TTL cleanup that unlinks files without a lock.
 */
module SingleFlightLocal {
  import opened Base
  import opened FileSystem
  import opened History

  /**
    keys: the storage keys in use. path: the file of a key. backfill: whether writers that bypass the
    flight table (the hybrid backend's Get) run as well. shard: which lock guards a key.
   */
  datatype Config = Config(keys: set<Key>, path: Key -> Path, backfill: bool, shard: Key -> nat)

  /** The entry at q, or the way to it, is where the entry at p or its temporary file goes. */
  ghost predicate Collides(p: Path, q: Path) {
    p == q || Tmp(p) == q || p < q || Tmp(p) < q
  }

  /** No key's file is the root, and no two keys collide. */
  ghost predicate Separate(cfg: Config) {
    && (forall k :: k in cfg.keys ==> cfg.path(k) != [])
    && (forall j, k :: j in cfg.keys && k in cfg.keys && j != k ==> !Collides(cfg.path(j), cfg.path(k)))
  }

  datatype PutPc =
    | Starting
    | Copying(ino: nat, off: nat)
    | Closed(ino: nat)
    | Locked(ino: nat)
    | Aborting(locked: bool)
    | PutDone(ok: bool)

  datatype HeadPc = HeadStarting | HeadLocked | HeadDone(outcome: Outcome)

  /** `seen` is the content at the moment of opening; it guides no step. */
  datatype GetPc =
    | GetStarting
    | GetLocked
    | Opening(ino: nat, seen: Bytes)
    | Streaming(ino: nat, size: nat, got: Bytes, seen: Bytes)
    | Directory(locked: bool)

  datatype Thread =
    | Idle
    | Put(key: Key, body: Bytes, via: Option<nat>, put: PutPc)
    | Head(key: Key, flight: nat, head: HeadPc)
    | Get(key: Key, get: GetPc)
    | Delete(key: Key, locked: bool)
    | Waiting(call: Call, flight: nat)

  /** The in-flight calls by name, the settled ones by number, and the next number. */
  datatype Table = Table(flights: map<string, nat>, results: map<nat, (Key, Outcome)>, next: nat)

  datatype State = State(fs: Fs, table: Table, threads: map<nat, Thread>, log: Log) {
    function At(t: nat): Thread { if t in threads then threads[t] else Idle }
  }

  function Init(): State { State(Fs(map[], map[], 0, {[]}), Table(map[], map[], 0), map[], Empty) }

  function Extend(log: Log, e: Option<Event>): Log { if e.Some? then Then(log, e.value) else log }

  // ---- locks ----

  predicate HoldsWrite(cfg: Config, th: Thread, shard: nat) {
    || (th.Put? && (th.put.Locked? || (th.put.Aborting? && th.put.locked)) && cfg.shard(th.key) == shard)
    || (th.Delete? && th.locked && cfg.shard(th.key) == shard)
  }

  predicate HoldsRead(cfg: Config, th: Thread, shard: nat) {
    || (th.Head? && th.head.HeadLocked? && cfg.shard(th.key) == shard)
    || (th.Get? && (th.get.GetLocked? || th.get.Opening? || th.get == Directory(true)) && cfg.shard(th.key) == shard)
  }

  predicate WriteFree(cfg: Config, threads: map<nat, Thread>, shard: nat) {
    forall u | u in threads :: !HoldsWrite(cfg, threads[u], shard)
  }

  predicate ReadFree(cfg: Config, threads: map<nat, Thread>, shard: nat) {
    forall u | u in threads :: !HoldsRead(cfg, threads[u], shard)
  }

  // ---- the file operations ----

  /** One file-level act of a thread. */
  datatype Act =
    | MakeDirs(dir: Path)
    | CreateTmp(ok: bool)
    | CopyChunk(n: nat)
    | CopyError
    | CloseTmp(ok: bool)
    | WriteLock
    | RenameTmp(ok: bool)
    | RemoveTmp(ok: bool)
    | ReadLock
    | Stat(ok: bool, dirSize: nat)
    | Open(ok: bool)
    | StatHandle(ok: bool)
    | ReadChunk(n: nat)
    | ReadEnd
    | Abandon
    | Unlink(ok: bool)

  /** What an act does: where its thread goes, the files it leaves, and what it logs. */
  datatype Move = Move(th: Thread, fs: Fs, event: Option<Event>)

  /** Local.Put: create, copy, close and, under the lock, rename; the tmp file is removed after a failure. */
  function PutStep(path: Key -> Path, fs: Fs, t: nat, th: Thread, act: Act): Option<Move>
    requires th.Put?
  {
    var p := path(th.key);
    var tmp := Tmp(p);
    match (th.put, act)
    case (Starting, MakeDirs(d)) =>
      // a part of mkdirAll's work: the directories down to d
      if d < p && fs.CanMakeDirs(d) then Some(Move(th, fs.MakeDirs(d), None)) else None
    case (Starting, CreateTmp(ok)) =>
      // a failure of mkdirAll or of create returns at once
      if !ok then Some(Move(th.(put := PutDone(false)), fs, None))
      else if fs.CanCreate(tmp) then Some(Move(th.(put := Copying(fs.CreatedInode(tmp), 0)), fs.Create(tmp), None))
      else None
    case (Copying(ino, off), CopyChunk(n)) =>
      if 0 < n && off + n <= |th.body| && ino in fs.data then
        Some(Move(th.(put := Copying(ino, off + n)), fs.WriteAt(ino, off, th.body[off..off + n]), None))
      else None
    case (Copying(_, _), CopyError) => Some(Move(th.(put := Aborting(false)), fs, None))
    case (Copying(ino, off), CloseTmp(ok)) =>
      if off == |th.body| then Some(Move(th.(put := if ok then Closed(ino) else Aborting(false)), fs, None))
      else None
    case (Closed(ino), WriteLock) => Some(Move(th.(put := Locked(ino)), fs, None))
    case (Locked(_), RenameTmp(ok)) =>
      // success releases the lock; it takes whatever is at the tmp path, and fails when nothing is
      if !ok then Some(Move(th.(put := Aborting(true)), fs, None))
      else if fs.CanRename(tmp, p) then
        Some(Move(th.(put := PutDone(true)), fs.Rename(tmp, p), Some(Stored(t, th.key, th.body))))
      else None
    case (Aborting(_), RemoveTmp(ok)) =>
      // the removal's own failure is ignored
      if !ok then Some(Move(th.(put := PutDone(false)), fs, None))
      else if fs.CanRemove(tmp) then Some(Move(th.(put := PutDone(false)), fs.Remove(tmp), None))
      else None
    case _ => None
  }

  /** Local.Head: stat under the read lock; a missing file is not an error, and a directory has some size. */
  function HeadStep(path: Key -> Path, fs: Fs, t: nat, th: Thread, act: Act): Option<Move>
    requires th.Head?
  {
    var p := path(th.key);
    match (th.head, act)
    case (HeadStarting, ReadLock) => Some(Move(th.(head := HeadLocked), fs, None))
    case (HeadLocked, Stat(ok, dirSize)) =>
      if !ok then Some(Move(th.(head := HeadDone(HeadError)), fs, None))
      else if p !in fs.dirs && fs.Content(p).None? && !fs.Unblocked(p) then None
      else
        var found := if p in fs.dirs then Some(dirSize) else SizeOf(fs.Content(p));
        Some(Move(th.(head := HeadDone(HeadResult(found))), fs, Some(Statted(t, th.key, found))))
    case _ => None
  }

  /**
    Local.Get: open and stat the handle under the read lock; then the client reads it to its end. A directory
    opens as well, and cannot be read.
   */
  function GetStep(path: Key -> Path, fs: Fs, t: nat, th: Thread, act: Act): Option<Move>
    requires th.Get?
  {
    var p := path(th.key);
    match (th.get, act)
    case (GetStarting, ReadLock) => Some(Move(th.(get := GetLocked), fs, None))
    case (GetLocked, Open(ok)) =>
      var found := fs.Content(p);
      if !ok then Some(Move(Idle, fs, Some(GetFailed(t))))
      else if p in fs.dirs then Some(Move(th.(get := Directory(true)), fs, Some(OpenedDirectory(t, th.key))))
      else if found.Some? then
        Some(Move(th.(get := Opening(fs.dir[p], found.value)), fs, Some(Opened(t, th.key, found))))
      else if fs.Unblocked(p) then Some(Move(Idle, fs, Some(Opened(t, th.key, None))))
      else None
    case (Opening(ino, seen), StatHandle(ok)) =>
      if ok && ino in fs.data then Some(Move(th.(get := Streaming(ino, |fs.data[ino]|, [], seen)), fs, None))
      else Some(Move(Idle, fs, Some(GetFailed(t))))
    case (Streaming(ino, size, got, seen), ReadChunk(n)) =>
      // the bytes that the file holds now
      if 0 < n && ino in fs.data && |got| + n <= |fs.data[ino]| then
        Some(Move(th.(get := Streaming(ino, size, got + fs.data[ino][|got|..|got| + n], seen)), fs, None))
      else None
    case (Streaming(ino, size, got, _), ReadEnd) =>
      if ino in fs.data && |fs.data[ino]| <= |got| then Some(Move(Idle, fs, Some(Delivered(t, th.key, got, size))))
      else None
    case (Streaming(_, _, _, _), Abandon) => Some(Move(Idle, fs, Some(GetFailed(t))))
    case (Directory(true), StatHandle(ok)) =>
      if ok then Some(Move(th.(get := Directory(false)), fs, None))
      else Some(Move(Idle, fs, Some(GetFailed(t))))
    case (Directory(false), Abandon) => Some(Move(Idle, fs, Some(GetFailed(t))))
    case _ => None
  }

  /** Local.Delete: remove under the write lock; a missing file is not an error. */
  function DeleteStep(path: Key -> Path, fs: Fs, t: nat, th: Thread, act: Act): Option<Move>
    requires th.Delete?
  {
    match act
    case WriteLock => if th.locked then None else Some(Move(th.(locked := true), fs, None))
    case Unlink(ok) =>
      if !th.locked then None
      else if !ok then Some(Move(Idle, fs, Some(DeleteFailed(t))))
      else if fs.CanRemove(path(th.key)) then Some(Move(Idle, fs.Remove(path(th.key)), Some(Removed(t, th.key))))
      else None
    case _ => None
  }

  function FileStep(path: Key -> Path, fs: Fs, t: nat, th: Thread, act: Act): Option<Move> {
    match th
    case Put(_, _, _, _) => PutStep(path, fs, t, th, act)
    case Head(_, _, _) => HeadStep(path, fs, t, th, act)
    case Get(_, _) => GetStep(path, fs, t, th, act)
    case Delete(_, _) => DeleteStep(path, fs, t, th, act)
    case _ => None
  }

  /** A lock is taken only when no holder excludes it. */
  predicate Admitted(cfg: Config, threads: map<nat, Thread>, th: Thread, act: Act) {
    && (act.WriteLock? && (th.Put? || th.Delete?) ==>
          WriteFree(cfg, threads, cfg.shard(th.key)) && ReadFree(cfg, threads, cfg.shard(th.key)))
    && (act.ReadLock? && (th.Head? || th.Get?) ==> WriteFree(cfg, threads, cfg.shard(th.key)))
  }

  // ---- the flight table ----

  /** The table name of a de-duplicated call. */
  function FlightName(call: Call): string {
    if call.PutCall? then "put:" + call.key else "head:" + call.key
  }

  /** Group.Do on entry: join the flight under way, or lead a new one. */
  function Fly(s: State, t: nat, call: Call): State
    requires call.PutCall? || call.HeadCall?
  {
    var name := FlightName(call);
    if name in s.table.flights then
      var f := s.table.flights[name];
      s.(threads := s.threads[t := Waiting(call, f)], log := Then(s.log, Joined(t, f, call)))
    else
      var f := s.table.next;
      var th := if call.PutCall? then Put(call.key, call.body, Some(f), Starting) else Head(call.key, f, HeadStarting);
      s.(table := s.table.(flights := s.table.flights[name := f], next := f + 1),
         threads := s.threads[t := th],
         log := Then(s.log, Began(t, call)))
  }

  function LeaderFlight(th: Thread): Option<nat> {
    if th.Put? then th.via else if th.Head? then Some(th.flight) else None
  }

  function LeaderCall(th: Thread): Call
    requires LeaderFlight(th).Some?
  {
    if th.Put? then PutCall(th.key, th.body) else HeadCall(th.key)
  }

  /** The outcome of a leader whose backend call has returned. */
  function LeaderOutcome(th: Thread): Option<Outcome> {
    if th.Put? && th.put.PutDone? then Some(PutResult(th.put.ok))
    else if th.Head? && th.head.HeadDone? then Some(th.head.outcome)
    else None
  }

  /** Group.Do on exit: publish the leader's outcome and drop the table entry. */
  function SettleFlight(s: State, t: nat): State
    requires LeaderFlight(s.At(t)).Some? && LeaderOutcome(s.At(t)).Some?
  {
    var th := s.At(t);
    var f, r := LeaderFlight(th).value, LeaderOutcome(th).value;
    s.(table := s.table.(flights := s.table.flights - {FlightName(LeaderCall(th))},
        results := s.table.results[f := (th.key, r)]),
       threads := s.threads[t := Idle],
       log := Then(s.log, Settled(t, f, th.key, r)))
  }

  // ---- runs ----

  datatype Label =
    | Request(t: nat, call: Call)
    | Backfill(t: nat, key: Key, body: Bytes)
    | Do(t: nat, act: Act)
    | Settle(t: nat)
    | Share(t: nat)
    | Evict(file: Path, entry: Option<Key>)

  /** The key, if any, whose file is at p. */
  predicate Names(cfg: Config, p: Path, entry: Option<Key>) {
    if entry.Some? then entry.value in cfg.keys && cfg.path(entry.value) == p
    else forall k | k in cfg.keys :: cfg.path(k) != p
  }

  function Next(cfg: Config, s: State, l: Label): Option<State> {
    match l
    case Request(t, call) =>
      if !s.At(t).Idle? || call.key !in cfg.keys then None
      else if call.PutCall? || call.HeadCall? then Some(Fly(s, t, call))
      else
        var th := if call.GetCall? then Get(call.key, GetStarting) else Delete(call.key, false);
        Some(s.(threads := s.threads[t := th], log := Then(s.log, Began(t, call))))
    case Backfill(t, k, b) =>
      if !s.At(t).Idle? || k !in cfg.keys || !cfg.backfill then None
      else Some(s.(threads := s.threads[t := Put(k, b, None, Starting)], log := Then(s.log, Began(t, PutCall(k, b)))))
    case Do(t, act) =>
      var m := FileStep(cfg.path, s.fs, t, s.At(t), act);
      if m.None? || !Admitted(cfg, s.threads, s.At(t), act) then None
      else Some(s.(fs := m.value.fs, threads := s.threads[t := m.value.th], log := Extend(s.log, m.value.event)))
    case Settle(t) =>
      if LeaderOutcome(s.At(t)).None? then None
      else if LeaderFlight(s.At(t)).Some? then Some(SettleFlight(s, t))
      else Some(s.(threads := s.threads[t := Idle], log := Then(s.log, Backfilled(t, LeaderOutcome(s.At(t)).value.ok))))
    case Share(t) =>
      var th := s.At(t);
      if !th.Waiting? || th.flight !in s.table.results then None
      else Some(s.(threads := s.threads[t := Idle],
          log := Then(s.log, Shared(t, th.flight, s.table.results[th.flight].1))))
    case Evict(p, entry) =>
      // cleanup unlinks any file, a temporary one included, without a lock; it leaves directories
      if p !in s.fs.dir || !Names(cfg, p, entry) then None
      else
        var e := if entry.Some? then Some(Evicted(entry.value)) else None;
        Some(s.(fs := s.fs.Remove(p), log := Extend(s.log, e)))
  }

  /** The state after a run, when every step of it is enabled. */
  function Exec(cfg: Config, s: State, run: seq<Label>): Option<State>
    decreases |run|
  {
    if run == [] then Some(s)
    else
      var mid := Exec(cfg, s, run[..|run| - 1]);
      if mid.None? then None else Next(cfg, mid.value, run[|run| - 1])
  }

  // ---- Puts of one key that overlap ----

  /** A Put between the creation of its tmp file and its rename. */
  predicate Writing(th: Thread) { th.Put? && (th.put.Copying? || th.put.Closed? || th.put.Locked?) }

  /** No Put of k but thread t's is writing. */
  predicate Alone(threads: map<nat, Thread>, t: nat, k: Key) {
    forall u | u in threads && u != t :: Writing(threads[u]) ==> threads[u].key != k
  }

  /** The step creates no tmp file while another Put of the key is writing. */
  predicate KeepsApart(s: State, l: Label) {
    l.Do? && l.act == CreateTmp(true) && s.At(l.t).Put? ==> Alone(s.threads, l.t, s.At(l.t).key)
  }

  /** In the run no two Puts of one key, whoever makes them, write at the same time. */
  ghost predicate LoneRun(cfg: Config, s: State, run: seq<Label>)
    decreases |run|
  {
    run == [] ||
    var mid := Exec(cfg, s, run[..|run| - 1]);
    mid.Some? && LoneRun(cfg, s, run[..|run| - 1]) && KeepsApart(mid.value, run[|run| - 1])
  }

  /** Every such run from the empty store has a legal log. */
  ghost predicate AtomicWhenLone(cfg: Config) {
    forall run, s :: Exec(cfg, Init(), run) == Some(s) && LoneRun(cfg, Init(), run) ==> Legal(s.log)
  }

  /** Every run from the empty store has a legal log. */
  ghost predicate Atomic(cfg: Config) {
    forall run, s :: Exec(cfg, Init(), run) == Some(s) ==> Legal(s.log)
  }
}
