/** The local backend as the code writes it: one object whose methods update the files step by step. */
module LocalStore {
  import opened Base
  import opened FileSystem
  import H = History
  import SF = SingleFlightLocal

  const BUFFER: nat := 32 * 1024

  /**
    Which file-system calls of one Put succeed. `mkdir`: how many levels mkdirAll makes before it fails, if it
    does. `copied`: how many bytes are read before a copy error, if any.
   */
  datatype PutFaults = PutFaults(
    mkdir: Option<nat>, create: bool, copied: Option<nat>, close: bool, rename: bool, removeTmp: bool)
  {
    predicate Harmless(size: nat) {
      mkdir.None? && create && (copied.None? || copied.value >= size) && close && rename
    }
  }

  datatype GetResult = GetError | Missing | Found(ino: nat, size: nat) | Announced(size: nat)

  datatype HeadResult = HeadError | NoEntry | Entry(size: nat)

  /** Directories made down to the last one of p are those below p. */
  lemma DirsBelow(p: Path, before: set<Path>, after: set<Path>)
    requires p != [] && forall q :: q in after ==> q in before || q <= p[..|p| - 1]
    ensures forall q :: q in after ==> q in before || q < p
    ensures (forall q :: q <= p[..|p| - 1] ==> q in after) ==> forall q :: q < p ==> q in after
  {
    forall q | q in after ensures q in before || q < p { ProperPrefix(p, q); }
    if forall q :: q <= p[..|p| - 1] ==> q in after {
      forall q: Path | q < p ensures q in after { ProperPrefix(p, q); }
    }
  }

  lemma ProperPrefix(p: Path, q: Path)
    requires p != []
    ensures q <= p[..|p| - 1] <==> q < p
  {
    if q < p { assert q == p[..|q|] == p[..|p| - 1][..|q|]; }
  }

  lemma TmpParented(fs: Fs, p: Path)
    requires p != [] && forall q :: q < p ==> q in fs.dirs
    ensures fs.Parented(Tmp(p))
  {
    forall i | 0 <= i < |Tmp(p)| ensures Tmp(p)[..i] in fs.dirs {
      assert Tmp(p)[..i] == p[..i] && p[..i] < p;
    }
  }

  /** Where a thread alone in the store gets by a sequence of file acts. */
  ghost function FileRun(path: Key -> Path, fs: Fs, t: nat, th: SF.Thread, acts: seq<SF.Act>): Option<(Fs, SF.Thread)>
    decreases |acts|
  {
    if acts == [] then Some((fs, th))
    else
      var mid := FileRun(path, fs, t, th, acts[..|acts| - 1]);
      if mid.None? then None
      else
        var m := SF.FileStep(path, mid.value.0, t, mid.value.1, acts[|acts| - 1]);
        if m.None? then None else Some((m.value.fs, m.value.th))
  }

  /** What a thread alone in the store logs by a sequence of file acts. */
  ghost function FileLog(path: Key -> Path, fs: Fs, t: nat, th: SF.Thread, acts: seq<SF.Act>): seq<H.Event>
    decreases |acts|
  {
    if acts == [] then []
    else
      var rest := acts[..|acts| - 1];
      var mid := FileRun(path, fs, t, th, rest);
      var m := if mid.None? then None else SF.FileStep(path, mid.value.0, t, mid.value.1, acts[|acts| - 1]);
      FileLog(path, fs, t, th, rest) + if m.Some? && m.value.event.Some? then [m.value.event.value] else []
  }

  /** One, two or three acts of a thread alone in the store. */
  ghost predicate Goes(path: Key -> Path, fs: Fs, t: nat, th: SF.Thread, acts: seq<SF.Act>, fs': Fs, th': SF.Thread,
      events: seq<H.Event>)
  {
    FileRun(path, fs, t, th, acts) == Some((fs', th')) && FileLog(path, fs, t, th, acts) == events
  }

  lemma GoesNowhere(path: Key -> Path, fs: Fs, t: nat, th: SF.Thread)
    ensures Goes(path, fs, t, th, [], fs, th, [])
  {
  }

  lemma GoesOn(path: Key -> Path, fs: Fs, t: nat, th: SF.Thread, acts: seq<SF.Act>, fs': Fs, th': SF.Thread,
      events: seq<H.Event>, act: SF.Act, m: SF.Move) returns (acts': seq<SF.Act>)
    requires Goes(path, fs, t, th, acts, fs', th', events) && SF.FileStep(path, fs', t, th', act) == Some(m)
    ensures acts' == acts + [act]
    ensures Goes(path, fs, t, th, acts', m.fs, m.th, events + if m.event.Some? then [m.event.value] else [])
  {
    acts' := acts + [act];
    assert (acts + [act])[..|acts|] == acts;
  }

  /** A Put of thread t, alone in the store, that began with the files fs0. */
  datatype Lone = Lone(path: Key -> Path, fs0: Fs, t: nat, key: Key, body: Bytes) {
    function P(): Path { path(key) }
    function At(pc: SF.PutPc): SF.Thread { SF.Put(key, body, None, pc) }

    /** The acts take it to the point pc, with the files fs. */
    ghost predicate Run(acts: seq<SF.Act>, fs: Fs, pc: SF.PutPc) {
      FileRun(path, fs0, t, At(SF.Starting), acts) == Some((fs, At(pc)))
    }
  }

  /** The acts of a Get that ends with r: what it logs, and that a handle goes on to be read. */
  ghost predicate GetGoes(path: Key -> Path, fs: Fs, t: nat, key: Key, r: GetResult, acts: seq<SF.Act>) {
    var from := SF.Get(key, SF.GetStarting);
    match r
    case Missing => Goes(path, fs, t, from, acts, fs, SF.Idle, [H.Opened(t, key, None)])
    case Found(ino, size) =>
      var body := fs.Content(path(key));
      && body.Some?
      && Goes(path, fs, t, from, acts, fs, SF.Get(key, SF.Streaming(ino, size, [], body.value)),
              [H.Opened(t, key, body)])
    case Announced(_) =>
      Goes(path, fs, t, from, acts, fs, SF.Get(key, SF.Directory(false)), [H.OpenedDirectory(t, key)])
    case GetError =>
      var events := FileLog(path, fs, t, from, acts);
      Goes(path, fs, t, from, acts, fs, SF.Idle, events) && events != [] && events[|events| - 1] == H.GetFailed(t)
  }

  /** The acts of a Get, given the result that the files and the calls' success lead to. */
  lemma GetActs(path: Key -> Path, fs: Fs, t: nat, key: Key, openOk: bool, statOk: bool, r: GetResult)
    returns (acts: seq<SF.Act>)
    requires fs.Valid()
    requires
      var p := path(key);
      match r
      case Missing => openOk && p !in fs.dirs && p !in fs.dir && fs.Unblocked(p)
      case Found(ino, size) => openOk && statOk && p in fs.dir && fs.dir[p] == ino && size == |fs.data[ino]|
      case Announced(_) => openOk && statOk && p in fs.dirs
      case GetError =>
        !openOk || (!statOk && (p in fs.dirs || p in fs.dir)) || (p !in fs.dirs && p !in fs.dir && !fs.Unblocked(p))
    ensures GetGoes(path, fs, t, key, r, acts)
  {
    var p, from, locked := path(key), SF.Get(key, SF.GetStarting), SF.Get(key, SF.GetLocked);
    GoesNowhere(path, fs, t, from);
    acts := GoesOn(path, fs, t, from, [], fs, from, [], SF.ReadLock, SF.Move(locked, fs, None));
    var found := openOk && (p in fs.dirs || p in fs.dir || fs.Unblocked(p));
    var m := SF.FileStep(path, fs, t, locked, SF.Open(found)).value;
    acts := GoesOn(path, fs, t, from, acts, fs, locked, [], SF.Open(found), m);
    if found && !r.Missing? { acts := GetStats(path, fs, t, key, statOk, m, acts); }
  }

  lemma GetStats(path: Key -> Path, fs: Fs, t: nat, key: Key, statOk: bool, m: SF.Move, acts: seq<SF.Act>)
    returns (acts': seq<SF.Act>)
    requires fs.Valid() && (path(key) in fs.dirs || path(key) in fs.dir) && m.event.Some?
    requires SF.FileStep(path, fs, t, SF.Get(key, SF.GetLocked), SF.Open(true)) == Some(m)
    requires Goes(path, fs, t, SF.Get(key, SF.GetStarting), acts, fs, m.th, [m.event.value])
    ensures
      var p := path(key);
      var r := if !statOk then GetError else if p in fs.dirs then Announced(0)
               else Found(fs.dir[p], |fs.data[fs.dir[p]]|);
      GetGoes(path, fs, t, key, r, acts')
  {
    var stat := SF.FileStep(path, fs, t, m.th, SF.StatHandle(statOk)).value;
    StatMoves(path, fs, t, key, statOk, m);
    acts' := GoesOn(path, fs, t, SF.Get(key, SF.GetStarting), acts, fs, m.th, [m.event.value],
                    SF.StatHandle(statOk), stat);
  }

  /** Where the stat of an opened handle leads. */
  lemma StatMoves(path: Key -> Path, fs: Fs, t: nat, key: Key, statOk: bool, m: SF.Move)
    requires fs.Valid() && (path(key) in fs.dirs || path(key) in fs.dir)
    requires SF.FileStep(path, fs, t, SF.Get(key, SF.GetLocked), SF.Open(true)) == Some(m)
    ensures
      var p := path(key);
      && m.event == Some(if p in fs.dirs then H.OpenedDirectory(t, key) else H.Opened(t, key, fs.Content(p)))
      && SF.FileStep(path, fs, t, m.th, SF.StatHandle(statOk)) == Some(
           if !statOk then SF.Move(SF.Idle, fs, Some(H.GetFailed(t)))
           else if p in fs.dirs then SF.Move(SF.Get(key, SF.Directory(false)), fs, None)
           else
             var ino := fs.dir[p];
             SF.Move(SF.Get(key, SF.Streaming(ino, |fs.data[ino]|, [], fs.data[ino])), fs, None))
  {
  }

  ghost predicate HeadGoes(path: Key -> Path, fs: Fs, t: nat, f: nat, key: Key, r: HeadResult, acts: seq<SF.Act>) {
    var from := SF.Head(key, f, SF.HeadStarting);
    match r
    case HeadError => Goes(path, fs, t, from, acts, fs, SF.Head(key, f, SF.HeadDone(H.HeadError)), [])
    case _ =>
      var found := if r.Entry? then Some(r.size) else None;
      Goes(path, fs, t, from, acts, fs, SF.Head(key, f, SF.HeadDone(H.HeadResult(found))),
           [H.Statted(t, key, found)])
  }

  /** What a removal leaves; one of nothing changes nothing. */
  lemma RemovesOnly(fs: Fs, p: Path)
    requires fs.Valid()
    ensures fs.Remove(p).Valid() && fs.Remove(p).dirs == fs.dirs - {p}
    ensures forall q: Path :: fs.Remove(p).Content(q) == if q == p then None else fs.Content(q)
    ensures p !in fs.dir && p !in fs.dirs ==> fs.Remove(p) == fs
  {
    assert p !in fs.dir ==> fs.dir - {p} == fs.dir;
    assert p !in fs.dirs ==> fs.dirs - {p} == fs.dirs;
  }

  /** One more act of a lone Put. */
  lemma RunMore(l: Lone, acts: seq<SF.Act>, fs: Fs, pc: SF.PutPc, act: SF.Act, fs': Fs, pc': SF.PutPc)
    returns (acts': seq<SF.Act>)
    requires l.Run(acts, fs, pc)
    requires
      var m := SF.PutStep(l.path, fs, l.t, l.At(pc), act);
      m.Some? && m.value.fs == fs' && m.value.th == l.At(pc')
    ensures l.Run(acts', fs', pc')
  {
    acts' := acts + [act];
    assert (acts + [act])[..|acts|] == acts;
  }

  /** The change from fs to fs' puts b at q and leaves the content of every other path. */
  ghost predicate OnlyAt(fs: Fs, fs': Fs, q: Path, b: Bytes) {
    forall p: Path :: fs'.Content(p) == if p == q then Some(b) else fs.Content(p)
  }

  lemma OnlyAtOn(fs: Fs, mid: Fs, fs': Fs, q: Path, a: Bytes, b: Bytes)
    requires OnlyAt(fs, mid, q, a) && OnlyAt(mid, fs', q, b)
    ensures OnlyAt(fs, fs', q, b)
  {
  }

  /** One more chunk in the tmp file of a lone Put. */
  lemma ChunkMore(l: Lone, acts: seq<SF.Act>, fs: Fs, ino: nat, off: nat, n: nat) returns (acts': seq<SF.Act>)
    requires fs.Valid() && Tmp(l.P()) in fs.dir && fs.dir[Tmp(l.P())] == ino
    requires 0 < n && off + n <= |l.body| && fs.Content(Tmp(l.P())) == Some(l.body[..off])
    requires l.Run(acts, fs, SF.Copying(ino, off))
    ensures
      var fs' := fs.WriteAt(ino, off, l.body[off..off + n]);
      l.Run(acts', fs', SF.Copying(ino, off + n)) && fs'.Valid() && OnlyAt(fs, fs', Tmp(l.P()), l.body[..off + n])
  {
    var chunk := l.body[off..off + n];
    assert Splice(l.body[..off], off, chunk) == l.body[..off + n];
    WriteOnly(fs, Tmp(l.P()), off, chunk);
    acts' := RunMore(l, acts, fs, SF.Copying(ino, off), SF.CopyChunk(n), fs.WriteAt(ino, off, chunk),
                     SF.Copying(ino, off + n));
  }

  /** From the files fs, the first `off` bytes of a lone Put have reached its tmp file, and nothing else is changed. */
  ghost predicate Written(l: Lone, fs: Fs, cur: Fs, tmp: Path, ino: nat, off: nat, acts: seq<SF.Act>) {
    && tmp == Tmp(l.P()) && off <= |l.body| && cur.Valid() && cur.dir == fs.dir && cur.dirs == fs.dirs
    && tmp in cur.dir && cur.dir[tmp] == ino && ino in cur.data
    && OnlyAt(fs, cur, tmp, l.body[..off]) && l.Run(acts, cur, SF.Copying(ino, off))
  }

  lemma WrittenNone(l: Lone, fs: Fs, tmp: Path, ino: nat, acts: seq<SF.Act>)
    requires fs.Valid() && tmp == Tmp(l.P()) && tmp in fs.dir && fs.dir[tmp] == ino && fs.Content(tmp) == Some([])
    requires l.Run(acts, fs, SF.Copying(ino, 0))
    ensures Written(l, fs, fs, tmp, ino, 0, acts)
  {
  }

  lemma WrittenMore(l: Lone, fs: Fs, cur: Fs, tmp: Path, ino: nat, off: nat, acts: seq<SF.Act>, n: nat)
    returns (acts': seq<SF.Act>)
    requires Written(l, fs, cur, tmp, ino, off, acts) && 0 < n && off + n <= |l.body|
    ensures Written(l, fs, cur.WriteAt(ino, off, l.body[off..off + n]), tmp, ino, off + n, acts')
  {
    assert cur.Content(tmp) == Some(l.body[..off]);
    acts' := ChunkMore(l, acts, cur, ino, off, n);
    OnlyAtOn(fs, cur, cur.WriteAt(ino, off, l.body[off..off + n]), tmp, l.body[..off], l.body[..off + n]);
  }

  class Local {
    const path: Key -> Path
    var fs: Fs

    constructor (path: Key -> Path)
      ensures this.path == path && fs.Valid() && fs == Fs(map[], map[], 0, {[]})
    {
      this.path := path;
      fs := Fs(map[], map[], 0, {[]});
    }

    /** mkdirAll as far as it gets: to the directory d, or with a fault to some directory on the way. */
    method MakeDirs(d: Path, fault: Option<nat>, ghost l: Lone) returns (ok: bool, ghost acts: seq<SF.Act>)
      requires fs.Valid() && l.P() != [] && d == l.P()[..|l.P()| - 1] && l.fs0 == fs && l.path == path
      modifies this
      ensures fs.Valid() && fs.dir == old(fs.dir) && fs.data == old(fs.data) && fs.next == old(fs.next)
      ensures ok <==> fault.None? && old(fs.CanMakeDirs(d))
      ensures old(fs.dirs) <= fs.dirs && forall q :: q in fs.dirs ==> q in old(fs.dirs) || q <= d
      ensures ok ==> forall q :: q <= d ==> q in fs.dirs
      ensures l.Run(acts, fs, SF.Starting)
    {
      acts := [];
      var reach := if fault.Some? && fault.value < |d| then d[..fault.value] else d;
      ok := fault.None? && fs.CanMakeDirs(d);
      if fs.CanMakeDirs(reach) {
        assert reach <= d && d < l.P();
        MakeDirsOnly(fs, reach);
        acts := RunMore(l, acts, fs, SF.Starting, SF.MakeDirs(reach), fs.MakeDirs(reach), SF.Starting);
        fs := fs.MakeDirs(reach);
      }
    }

    /** The copy loop: the bytes up to `limit` reach the tmp file, a buffer at a time. */
    method CopyBuffer(tmp: Path, body: Bytes, limit: nat, ino: nat, ghost l: Lone, ghost acts0: seq<SF.Act>)
      returns (ghost acts: seq<SF.Act>)
      requires tmp == Tmp(l.P()) && l.body == body
      requires fs.Valid() && limit <= |body| && tmp in fs.dir && fs.dir[tmp] == ino
      requires fs.Content(tmp) == Some([]) && l.Run(acts0, fs, SF.Copying(ino, 0))
      modifies this
      ensures fs.Valid() && fs.dir == old(fs.dir) && fs.dirs == old(fs.dirs)
      ensures OnlyAt(old(fs), fs, tmp, body[..limit])
      ensures l.Run(acts, fs, SF.Copying(ino, limit))
    {
      var off, cur := 0, fs;
      ghost var was := fs;
      acts := acts0;
      WrittenNone(l, fs, tmp, ino, acts);
      while off < limit
        invariant off <= limit && Written(l, was, cur, tmp, ino, off, acts)
      {
        var n := if limit - off < BUFFER then limit - off else BUFFER;
        acts := WrittenMore(l, was, cur, tmp, ino, off, acts, n);
        cur, off := cur.WriteAt(ino, off, body[off..off + n]), off + n;
      }
      fs := cur;
    }

    /** The removal of the tmp file after a failure. */
    method Abort(removeOk: bool, ghost locked: bool, ghost l: Lone, ghost acts0: seq<SF.Act>, key: Key)
      returns (ghost acts: seq<SF.Act>)
      requires fs.Valid() && l.path == path && l.key == key && Tmp(path(key)) in fs.dir
      requires l.Run(acts0, fs, SF.Aborting(locked))
      modifies this
      ensures fs.Valid() && fs.dirs == old(fs.dirs) && l.Run(acts, fs, SF.PutDone(false))
      ensures forall p: Path ::
        fs.Content(p) == if removeOk && p == Tmp(path(key)) then None else old(fs.Content(p))
    {
      var tmp := Tmp(path(key));
      assert tmp !in fs.dirs && fs.dirs - {tmp} == fs.dirs;
      acts := RunMore(l, acts0, fs, SF.Aborting(locked), SF.RemoveTmp(removeOk),
                      if removeOk then fs.Remove(tmp) else fs, SF.PutDone(false));
      if removeOk { fs := fs.Remove(tmp); }
    }

    /** What lets a Put of p succeed: directories can be made for it, and it and its tmp file are none. */
    ghost predicate Welcomes(p: Path)
      reads this
    {
      p != [] && fs.CanMakeDirs(p[..|p| - 1]) && p !in fs.dirs && Tmp(p) !in fs.dirs
    }

    /**
      Success puts the whole body at the key; failure leaves every entry but the tmp file as it was, though
      directories on the way may have been made. Either way the calls made are a path of the interleaving
      machine's Put, so every fact proved of the machine's runs covers them.
     */
    method Put(key: Key, body: Bytes, faults: PutFaults, ghost t: nat) returns (ok: bool, ghost acts: seq<SF.Act>)
      requires fs.Valid() && path(key) != []
      modifies this
      ensures fs.Valid()
      ensures forall p: Path :: p != Tmp(path(key)) ==>
        fs.Content(p) == if ok && p == path(key) then Some(body) else old(fs.Content(p))
      ensures ok <==> old(Welcomes(path(key))) && faults.Harmless(|body|)
      ensures old(Creates(path(key), faults)) && (ok || faults.removeTmp) ==> fs.Content(Tmp(path(key))).None?
      ensures !old(Creates(path(key), faults)) ==> fs.dir == old(fs.dir) && fs.data == old(fs.data)
      ensures old(fs.dirs) <= fs.dirs && forall q :: q in fs.dirs ==> q in old(fs.dirs) || q < path(key)
      ensures ok ==> forall q :: q < path(key) ==> q in fs.dirs
      ensures Lone(path, old(fs), t, key, body).Run(acts, fs, SF.PutDone(ok))
    {
      ghost var l := Lone(path, fs, t, key, body);
      var p, made := path(key), false;
      var tmp, d := Tmp(p), p[..|p| - 1];
      made, acts := MakeDirs(d, faults.mkdir, l);
      DirsBelow(p, l.fs0.dirs, fs.dirs);
      if !made || !faults.create || tmp in fs.dirs {
        acts := RunMore(l, acts, fs, SF.Starting, SF.CreateTmp(false), fs, SF.PutDone(false));
        return false, acts;
      }
      var ino := fs.CreatedInode(tmp);
      CreateOnly(fs, tmp);
      TmpParented(fs, p);
      acts := RunMore(l, acts, fs, SF.Starting, SF.CreateTmp(true), fs.Create(tmp), SF.Copying(ino, 0));
      fs := fs.Create(tmp);

      var limit := if faults.copied.None? || faults.copied.value >= |body| then |body| else faults.copied.value;
      acts := CopyBuffer(tmp, body, limit, ino, l, acts);
      ok, acts := Publish(key, body, limit, ino, faults, l, acts);
    }

    /** A Put of p gets as far as creating its tmp file. */
    ghost predicate Creates(p: Path, faults: PutFaults)
      reads this
    {
      p != [] && faults.mkdir.None? && fs.CanMakeDirs(p[..|p| - 1]) && faults.create && Tmp(p) !in fs.dirs
    }

    /** The end of a Put whose first `limit` bytes are copied: close, lock and rename, or remove the tmp file. */
    method Publish(key: Key, body: Bytes, limit: nat, ino: nat, faults: PutFaults, ghost l: Lone,
                   ghost acts0: seq<SF.Act>) returns (ok: bool, ghost acts: seq<SF.Act>)
      requires l.path == path && l.key == key && l.body == body && path(key) != []
      requires fs.Valid() && limit <= |body| && fs.Content(Tmp(path(key))) == Some(body[..limit])
      requires l.Run(acts0, fs, SF.Copying(ino, limit))
      modifies this
      ensures fs.Valid() && fs.dirs == old(fs.dirs)
      ensures ok <==> limit == |body| && faults.close && faults.rename && path(key) !in fs.dirs
      ensures forall p: Path :: p != Tmp(path(key)) ==>
        fs.Content(p) == if ok && p == path(key) then Some(body) else old(fs.Content(p))
      ensures ok || faults.removeTmp ==> fs.Content(Tmp(path(key))) == None
      ensures l.Run(acts, fs, SF.PutDone(ok))
    {
      var p, tmp := path(key), Tmp(path(key));
      acts := acts0;
      ghost var locked := false;
      if limit < |body| {
        acts := RunMore(l, acts, fs, SF.Copying(ino, limit), SF.CopyError, fs, SF.Aborting(false));
      } else if !faults.close {
        acts := RunMore(l, acts, fs, SF.Copying(ino, limit), SF.CloseTmp(false), fs, SF.Aborting(false));
      } else {
        acts := RunMore(l, acts, fs, SF.Copying(ino, limit), SF.CloseTmp(true), fs, SF.Closed(ino));
        acts := RunMore(l, acts, fs, SF.Closed(ino), SF.WriteLock, fs, SF.Locked(ino));
        if faults.rename && fs.CanRename(tmp, p) {
          assert body[..|body|] == body;
          RenameOnly(fs, tmp, p);
          acts := RunMore(l, acts, fs, SF.Locked(ino), SF.RenameTmp(true), fs.Rename(tmp, p), SF.PutDone(true));
          fs := fs.Rename(tmp, p);
          return true, acts;
        }
        acts := RunMore(l, acts, fs, SF.Locked(ino), SF.RenameTmp(false), fs, SF.Aborting(true));
        locked := true;
      }
      acts := Abort(faults.removeTmp, locked, l, acts, key);
      ok := false;
    }

    /** A miss is not an error, a handle leads to the entry's whole content, and a directory opens as well. */
    method Get(key: Key, openOk: bool, statOk: bool, dirSize: nat, ghost t: nat)
      returns (r: GetResult, ghost acts: seq<SF.Act>)
      requires fs.Valid()
      ensures r.Missing? <==> openOk && path(key) !in fs.dirs && path(key) !in fs.dir && fs.Unblocked(path(key))
      ensures r.Found? <==> openOk && statOk && path(key) in fs.dir
      ensures r.Found? ==>
        r.ino in fs.data && fs.Content(path(key)) == Some(fs.data[r.ino]) && r.size == |fs.data[r.ino]|
      ensures r.Announced? <==> openOk && statOk && path(key) in fs.dirs
      ensures GetGoes(path, fs, t, key, r, acts)
    {
      var p := path(key);
      if !openOk { r := GetError; }
      else if p in fs.dirs { r := if statOk then Announced(dirSize) else GetError; }
      else if p !in fs.dir { r := if fs.Unblocked(p) then Missing else GetError; }
      else if !statOk { r := GetError; }
      else { r := Found(fs.dir[p], |fs.data[fs.dir[p]]|); }
      acts := GetActs(path, fs, t, key, openOk, statOk, r);
    }

    /** What stat says of the key's path: a file's size, a directory's, or nothing there. */
    method Head(key: Key, ok: bool, dirSize: nat, ghost t: nat, ghost f: nat)
      returns (r: HeadResult, ghost acts: seq<SF.Act>)
      requires fs.Valid()
      ensures r.Entry? <==> ok && (path(key) in fs.dir || path(key) in fs.dirs)
      ensures r.Entry? ==>
        r.size == if path(key) in fs.dirs then dirSize else |fs.Content(path(key)).value|
      ensures r.NoEntry? <==> ok && path(key) !in fs.dir && path(key) !in fs.dirs && fs.Unblocked(path(key))
      ensures HeadGoes(path, fs, t, f, key, r, acts)
    {
      var p := path(key);
      ghost var from, locked := SF.Head(key, f, SF.HeadStarting), SF.Head(key, f, SF.HeadLocked);
      GoesNowhere(path, fs, t, from);
      acts := GoesOn(path, fs, t, from, [], fs, from, [], SF.ReadLock, SF.Move(locked, fs, None));
      var found := ok && (p in fs.dirs || p in fs.dir || fs.Unblocked(p));
      acts := GoesOn(path, fs, t, from, acts, fs, locked, [], SF.Stat(found, dirSize),
                     SF.FileStep(path, fs, t, locked, SF.Stat(found, dirSize)).value);
      if !found { return HeadError, acts; }
      if p in fs.dirs { return Entry(dirSize), acts; }
      if p in fs.dir { return Entry(|fs.data[fs.dir[p]]|), acts; }
      r := NoEntry;
    }

    /** Deleting a missing entry succeeds; a failure changes nothing; an empty directory is removed as well. */
    method Delete(key: Key, removeOk: bool, ghost t: nat) returns (ok: bool, ghost acts: seq<SF.Act>)
      requires fs.Valid()
      modifies this
      ensures fs.Valid() && (ok <==> old(fs.CanRemove(path(key))) && (removeOk || old(Absent(path(key)))))
      ensures forall p: Path :: fs.Content(p) == if ok && p == path(key) then None else old(fs.Content(p))
      ensures fs.dirs == if ok then old(fs.dirs) - {path(key)} else old(fs.dirs)
      ensures Goes(path, old(fs), t, SF.Delete(key, false), acts, fs, SF.Idle,
                   [if ok then H.Removed(t, key) else H.DeleteFailed(t)])
    {
      var p := path(key);
      ghost var from, locked := SF.Delete(key, false), SF.Delete(key, true);
      GoesNowhere(path, fs, t, from);
      acts := GoesOn(path, fs, t, from, [], fs, from, [], SF.WriteLock, SF.Move(locked, fs, None));
      ok := fs.CanRemove(p) && (removeOk || (p !in fs.dir && p !in fs.dirs));
      acts := GoesOn(path, fs, t, from, acts, fs, locked, [], SF.Unlink(ok),
                     SF.FileStep(path, fs, t, locked, SF.Unlink(ok)).value);
      RemovesOnly(fs, p);
      if ok && (p in fs.dir || p in fs.dirs) { fs := fs.Remove(p); }
    }

    ghost predicate Absent(p: Path)
      reads this
    {
      p !in fs.dir && p !in fs.dirs
    }

    /** The walk's visit to one file: its size, when that can be read, and its removal when it is stale. */
    method VisitFile(p: Path, now: int, ttl: int, world: Disk) returns (size: nat, gone: bool)
      requires fs.Valid() && p in fs.dir
      modifies this
      ensures fs.Valid() && old(fs.Content(p)).Some? && fs.dirs == old(fs.dirs)
      ensures size == if world.info(p) then |old(fs.Content(p)).value| else 0
      ensures gone <==>
        world.info(p) && world.atime(p).Some? && world.atime(p).value < now - ttl && world.removable(p)
      ensures forall q: Path :: fs.Content(q) == if q == p && gone then None else old(fs.Content(q))
    {
      if !world.info(p) { return 0, false; }
      size := |fs.data[fs.dir[p]]|;
      gone := false;
      if world.atime(p).None? { return; }
      if now - world.atime(p).value > ttl && world.removable(p) {
        assert fs.dirs - {p} == fs.dirs;
        fs := fs.Remove(p);
        gone := true;
      }
    }

    /**
      One cleanup pass over the files that `walk` visits, in that order: all of them, or those before a directory
      that cannot be read. A file goes exactly when it is visited, its information and access time can be
      read, the time is more than ttl ago, and its removal works. What is evicted is what is no longer there.
     */
    method RunCleanup(walk: seq<Path>, now: int, ttl: int, world: Disk)
      returns (entries: nat, size: nat, evicted: nat)
      requires fs.Valid()
      requires forall i, j :: 0 <= i < j < |walk| ==> walk[i] != walk[j]
      requires forall p :: p in walk ==> p in fs.dir
      modifies this
      ensures fs.Valid() && fs.dirs == old(fs.dirs)
      ensures forall p: Path :: p !in walk ==> fs.Content(p) == old(fs.Content(p))
      ensures forall p: Path ::
        p in walk && world.info(p) && world.atime(p).Some? && world.atime(p).value < now - ttl && world.removable(p)
        ==> fs.Content(p) == None
      ensures forall p: Path ::
        p in walk
        && (!world.info(p) || world.atime(p).None? || world.atime(p).value >= now - ttl || !world.removable(p))
        ==> fs.Content(p) == old(fs.Content(p))
      ensures entries == |Counted(walk, world)|
      ensures size == TotalSize(Counted(walk, world), old(fs))
      ensures TotalSize(walk, old(fs)) == TotalSize(walk, fs) + evicted
    {
      ghost var fs0 := fs;
      entries, size, evicted := 0, 0, 0;
      for i := 0 to |walk|
        invariant fs.Valid() && fs.dirs == fs0.dirs
        invariant Swept(fs, fs0, walk, i, now, ttl, world)
        invariant entries == |Counted(walk[..i], world)|
        invariant size == TotalSize(Counted(walk[..i], world), fs0)
        invariant TotalSize(walk[..i], fs0) == TotalSize(walk[..i], fs) + evicted
      {
        var p := walk[i];
        assert p !in walk[..i] && p in walk && fs0.Content(p).Some?;
        ghost var before := fs;
        var n, gone := VisitFile(p, now, ttl, world);
        SweptMore(before, fs, fs0, walk, i, now, ttl, world);
        if world.info(p) {
          entries := entries + 1;
          size := size + n;
        }
        if gone {
          evicted := evicted + n;
        }
        PassMore(walk, i, world, fs0);
        SizeMore(walk, i, fs0, before, fs);
      }
      assert walk[..|walk|] == walk;
    }
  }

  /** What the pass finds out about each path: whether its calls succeed, and its access time. */
  datatype Disk = Disk(info: Path -> bool, atime: Path -> Option<int>, removable: Path -> bool) {
    predicate Goes(p: Path, now: int, ttl: int) {
      info(p) && atime(p).Some? && atime(p).value < now - ttl && removable(p)
    }
  }

  /** The files that the pass has so far removed are those of the first i that were to go. */
  ghost predicate Swept(fs: Fs, fs0: Fs, walk: seq<Path>, i: nat, now: int, ttl: int, world: Disk)
    requires i <= |walk|
  {
    forall p: Path :: fs.Content(p) == if world.Goes(p, now, ttl) && p in walk[..i] then None else fs0.Content(p)
  }

  lemma SweptMore(fs: Fs, fs': Fs, fs0: Fs, walk: seq<Path>, i: nat, now: int, ttl: int, world: Disk)
    requires i < |walk| && Swept(fs, fs0, walk, i, now, ttl, world)
    requires forall q: Path ::
      fs'.Content(q) == if q == walk[i] && world.Goes(walk[i], now, ttl) then None else fs.Content(q)
    ensures Swept(fs', fs0, walk, i + 1, now, ttl, world)
  {
    assert walk[..i + 1] == walk[..i] + [walk[i]];
  }

  function Counted(walk: seq<Path>, world: Disk): seq<Path> {
    if walk == [] then []
    else
      var p := walk[|walk| - 1];
      Counted(walk[..|walk| - 1], world) + if world.info(p) then [p] else []
  }

  /** The counted files are the visited ones whose information can be read. */
  lemma {:induction false} CountedExactly(walk: seq<Path>, world: Disk, p: Path)
    ensures multiset(Counted(walk, world))[p] == if world.info(p) then multiset(walk)[p] else 0
    decreases |walk|
  {
    if walk != [] {
      var before, last := walk[..|walk| - 1], walk[|walk| - 1];
      CountedExactly(before, world, p);
      assert walk == before + [last];
      assert Counted(before, world) + [] == Counted(before, world);
    }
  }

  /** One more file of a pass. */
  lemma PassMore(walk: seq<Path>, i: nat, world: Disk, fs: Fs)
    requires i < |walk|
    ensures
      var p := walk[i];
      var c := Counted(walk[..i], world);
      && |Counted(walk[..i + 1], world)| == |c| + (if world.info(p) then 1 else 0)
      && TotalSize(Counted(walk[..i + 1], world), fs)
          == TotalSize(c, fs) + (if world.info(p) then SizeAt(fs, p) else 0)
  {
    var c, p := Counted(walk[..i], world), walk[i];
    assert walk[..i + 1][..i] == walk[..i];
    assert (c + [p])[..|c|] == c && c + [] == c;
  }

  function SizeAt(fs: Fs, p: Path): nat { if fs.Content(p).Some? then |fs.Content(p).value| else 0 }

  /** A visit changes at most its own file, and so the total by that. */
  lemma SizeMore(walk: seq<Path>, i: nat, fs0: Fs, before: Fs, fs: Fs)
    requires i < |walk| && walk[i] !in walk[..i]
    requires forall q: Path :: q != walk[i] ==> fs.Content(q) == before.Content(q)
    ensures TotalSize(walk[..i + 1], fs0) == TotalSize(walk[..i], fs0) + SizeAt(fs0, walk[i])
    ensures TotalSize(walk[..i + 1], fs) == TotalSize(walk[..i], before) + SizeAt(fs, walk[i])
  {
    assert walk[..i + 1][..i] == walk[..i];
    SameSize(walk[..i], before, fs);
  }

  lemma {:induction false} SameSize(paths: seq<Path>, fs: Fs, fs': Fs)
    requires forall p :: p in paths ==> fs'.Content(p) == fs.Content(p)
    ensures TotalSize(paths, fs') == TotalSize(paths, fs)
    decreases |paths|
  {
    if paths != [] { SameSize(paths[..|paths| - 1], fs, fs'); }
  }

  function TotalSize(paths: seq<Path>, fs: Fs): nat {
    if paths == [] then 0 else TotalSize(paths[..|paths| - 1], fs) + SizeAt(fs, paths[|paths| - 1])
  }
}
