/**
  The converse of the simulation: whatever the upload machine can do with the keys of a store, the files can do, by
  local writes that run one after another. So the machine has exactly the runs that the files have without overlap.
 */
module HybridFilesRealized {
  import opened Base
  import opened FileSystem
  import opened HybridFiles
  import SF = SingleFlightLocal
  import SP = SingleFlightLocalProofs
  import SA = SingleFlightLocalAlone
  import Up = AsyncUpload

  /** A run without overlapping local writes of one key takes s to s'. */
  ghost predicate Goes(cfg: Config, s: State, s': State) {
    exists run :: Exec(cfg, s, run) == Some(s') && RunOverlaps(cfg, s, run, {})
  }

  lemma GoesNowhere(cfg: Config, s: State)
    ensures Goes(cfg, s, s)
  {
    assert Exec(cfg, s, []) == Some(s) && RunOverlaps(cfg, s, [], {});
  }

  lemma GoesOn(cfg: Config, s: State, mid: State, l: Label, s': State)
    requires Goes(cfg, s, mid) && Next(cfg, mid, l) == Some(s') && Overlaps(mid, l, {})
    ensures Goes(cfg, s, s')
  {
    var run :| Exec(cfg, s, run) == Some(mid) && RunOverlaps(cfg, s, run, {});
    assert (run + [l])[..|run|] == run;
    assert Exec(cfg, s, run + [l]) == Some(s') && RunOverlaps(cfg, s, run + [l], {});
  }

  /** No local write is under way. */
  ghost predicate Rests(s: State) { forall c :: c in s.writers ==> s.writers[c].Idle? }

  /** Client c's local write is at th, the files are fs, and all else is as in s. */
  function At(s: State, c: nat, fs: Fs, th: SF.Thread): State { State(fs, s.writers[c := th], s.up) }

  predicate Locks(act: SF.Act) { act.WriteLock? || act.ReadLock? }

  /** A run from s0 has led to s with client c's local write at th and the files at fs, and no other under way. */
  ghost predicate Under(cfg: Config, s0: State, s: State, c: nat, fs: Fs, th: SF.Thread) {
    && SF.Separate(cfg.sf) && Rests(s) && !s.up.phase.Crashed? && th.Put?
    && Inv(cfg, At(s, c, fs, th)) && Goes(cfg, s0, At(s, c, fs, th))
  }

  /** The write's next step, alone. */
  lemma Writes(cfg: Config, s0: State, s: State, c: nat, fs: Fs, th: SF.Thread, act: SF.Act, m: SF.Move)
    requires Under(cfg, s0, s, c, fs, th) && SF.PutStep(cfg.sf.path, fs, c, th, act) == Some(m)
    requires Locks(act) ==> !th.put.Locked? && !th.put.Aborting?
    ensures m.th.Put?
    ensures
      var mid := At(s, c, fs, th);
      var s' := Landed(cfg, mid, c, m);
      Inv(cfg, s') && Goes(cfg, s0, s') && SeenAs(cfg, mid, Write(c, act), s') && WriteMove(cfg, mid, c, act) == Some(m)
  {
    var mid := At(s, c, fs, th);
    SP.PutMoves(cfg.sf.path, fs, c, th, act, m);
    LocksFree(cfg, s, c, th, act);
    assert WriteMove(cfg, mid, c, act) == Some(m);
    StepIsSeen(cfg, mid, Write(c, act), Landed(cfg, mid, c, m));
    GoesOn(cfg, s0, mid, Write(c, act), Landed(cfg, mid, c, m));
  }

  lemma LocksFree(cfg: Config, s: State, c: nat, th: SF.Thread, act: SF.Act)
    requires Rests(s) && th.Put? && (Locks(act) ==> !th.put.Locked? && !th.put.Aborting?)
    ensures SF.Admitted(cfg.sf, s.writers[c := th], th, act)
  {
  }

  /** ... when it is not the last. */
  lemma GoesThrough(cfg: Config, s0: State, s: State, c: nat, fs: Fs, th: SF.Thread, act: SF.Act, m: SF.Move)
    requires Under(cfg, s0, s, c, fs, th) && SF.PutStep(cfg.sf.path, fs, c, th, act) == Some(m)
    requires m.th.Put? && !m.th.put.PutDone? && (Locks(act) ==> !th.put.Locked? && !th.put.Aborting?)
    ensures Under(cfg, s0, s, c, m.fs, m.th)
  {
    Writes(cfg, s0, s, c, fs, th, act, m);
    LandsThrough(cfg, s, c, fs, th, act, m);
  }

  lemma LandsThrough(cfg: Config, s: State, c: nat, fs: Fs, th: SF.Thread, act: SF.Act, m: SF.Move)
    requires th.Put? && m.th.Put? && !m.th.put.PutDone?
    requires WriteMove(cfg, At(s, c, fs, th), c, act) == Some(m)
    requires SeenAs(cfg, At(s, c, fs, th), Write(c, act), Landed(cfg, At(s, c, fs, th), c, m))
    ensures Landed(cfg, At(s, c, fs, th), c, m) == At(s, c, m.fs, m.th)
  {
    assert s.writers[c := th][c := m.th] == s.writers[c := m.th];
  }

  /** The local write of b at k by client c, on its way. */
  function Writing(k: Key, b: Bytes, via: Option<nat>, pc: SF.PutPc): SF.Thread { SF.Put(k, b, via, pc) }

  /** The directories, the tmp file, and its content; */
  lemma WritesTmp(cfg: Config, s0: State, s: State, c: nat, k: Key, b: Bytes, via: Option<nat>)
    requires Under(cfg, s0, s, c, s.fs, Writing(k, b, via, SF.Starting)) && k in cfg.sf.keys && cfg.sf.path(k) != []
    ensures
      var ino := SA.WithDirs(cfg.sf, s.fs, k).CreatedInode(Tmp(cfg.sf.path(k)));
      Under(cfg, s0, s, c, SA.WithTmp(cfg.sf, s.fs, k, b), Writing(k, b, via, SF.Copying(ino, |b|)))
  {
    var p, made := cfg.sf.path(k), SA.WithDirs(cfg.sf, s.fs, k);
    var ino := made.CreatedInode(Tmp(p));
    var starting := Writing(k, b, via, SF.Starting);
    SA.RoomForPut(cfg.sf, s.fs, At(s, c, s.fs, starting).writers, s.up.local, k);
    GoesThrough(cfg, s0, s, c, s.fs, starting, SF.MakeDirs(p[..|p| - 1]), SF.Move(starting, made, None));
    var empty := SA.WithTmp(cfg.sf, s.fs, k, []);
    assert made.Create(Tmp(p)).data[ino := []] == made.Create(Tmp(p)).data;
    GoesThrough(cfg, s0, s, c, made, starting, SF.CreateTmp(true),
                SF.Move(Writing(k, b, via, SF.Copying(ino, 0)), empty, None));
    if b != [] {
      SA.CopyMoves(cfg.sf, s.fs, c, k, b, via);
      GoesThrough(cfg, s0, s, c, empty, Writing(k, b, via, SF.Copying(ino, 0)), SF.CopyChunk(|b|),
                  SF.Move(Writing(k, b, via, SF.Copying(ino, |b|)), SA.WithTmp(cfg.sf, s.fs, k, b), None));
    }
  }

  /** ... it closed, and the lock; */
  lemma WritesLocked(cfg: Config, s0: State, s: State, c: nat, k: Key, b: Bytes, via: Option<nat>)
    requires Under(cfg, s0, s, c, s.fs, Writing(k, b, via, SF.Starting)) && k in cfg.sf.keys && cfg.sf.path(k) != []
    ensures
      var ino := SA.WithDirs(cfg.sf, s.fs, k).CreatedInode(Tmp(cfg.sf.path(k)));
      Under(cfg, s0, s, c, SA.WithTmp(cfg.sf, s.fs, k, b), Writing(k, b, via, SF.Locked(ino)))
  {
    WritesTmp(cfg, s0, s, c, k, b, via);
    var fs, ino := SA.WithTmp(cfg.sf, s.fs, k, b), SA.WithDirs(cfg.sf, s.fs, k).CreatedInode(Tmp(cfg.sf.path(k)));
    var copied, closed := Writing(k, b, via, SF.Copying(ino, |b|)), Writing(k, b, via, SF.PutPc.Closed(ino));
    GoesThrough(cfg, s0, s, c, fs, copied, SF.CloseTmp(true), SF.Move(closed, fs, None));
    GoesThrough(cfg, s0, s, c, fs, closed, SF.WriteLock, SF.Move(Writing(k, b, via, SF.Locked(ino)), fs, None));
  }

  /** ... and the rename, which the upload machine sees as the write. */
  lemma WritesEntry(cfg: Config, s0: State, s: State, c: nat, k: Key, b: Bytes, via: Option<nat>) returns (s': State)
    requires Under(cfg, s0, s, c, s.fs, Writing(k, b, via, SF.Starting)) && k in cfg.sf.keys
    ensures Inv(cfg, s') && Goes(cfg, s0, s') && Rests(s')
    ensures Up.Next(cfg.up, s.up, if via.None? then Up.Fill(c, true) else Up.PutLocal(c, k, b)) == Some(s'.up)
  {
    SA.PutShows(cfg.sf, s.fs, At(s, c, s.fs, Writing(k, b, via, SF.Starting)).writers, s.up.local, k, b);
    WritesLocked(cfg, s0, s, c, k, b, via);
    var p, fs := cfg.sf.path(k), SA.WithTmp(cfg.sf, s.fs, k, b);
    var locked := Writing(k, b, via, SF.Locked(SA.WithDirs(cfg.sf, s.fs, k).CreatedInode(Tmp(p))));
    var m := SF.PutStep(cfg.sf.path, fs, c, locked, SF.RenameTmp(true)).value;
    Writes(cfg, s0, s, c, fs, locked, SF.RenameTmp(true), m);
    s' := Landed(cfg, At(s, c, fs, locked), c, m);
    LandsWhole(cfg, s, c, fs, locked, m, s');
  }

  lemma LandsWhole(cfg: Config, s: State, c: nat, fs: Fs, th: SF.Thread, m: SF.Move, s': State)
    requires Rests(s) && th.Put? && m.th == th.(put := SF.PutDone(true))
    requires s' == Landed(cfg, At(s, c, fs, th), c, m)
    requires WriteMove(cfg, At(s, c, fs, th), c, SF.RenameTmp(true)) == Some(m)
    requires SeenAs(cfg, At(s, c, fs, th), Write(c, SF.RenameTmp(true)), s')
    ensures Rests(s')
    ensures Up.Next(cfg.up, s.up, if th.via.None? then Up.Fill(c, true) else Up.PutLocal(c, th.key, th.body))
         == Some(s'.up)
  {
  }

  // ---- every step of the machine ----

  /** The keys that a step of the upload machine brings into play are the store's. */
  predicate Within(cfg: Config, l: Up.Label) {
    match l
    case PutLocal(_, k, _) => k in cfg.sf.keys
    case Fetch(_, k) => k in cfg.sf.keys
    case _ => true
  }

  /** Whatever a client has fetched is of a key of the store. */
  ghost predicate Fetches(cfg: Config, s: State) {
    forall c: nat :: s.up.At(c).Fetched? ==> s.up.At(c).key in cfg.sf.keys
  }

  lemma FetchesOn(cfg: Config, s: State, l: Up.Label, s': State)
    requires Fetches(cfg, s) && Within(cfg, l) && Up.Next(cfg.up, s.up, l) == Some(s'.up)
    ensures Fetches(cfg, s')
  {
    forall c: nat | s'.up.At(c).Fetched? ensures s'.up.At(c).key in cfg.sf.keys { FetchedOn(cfg, s, l, s', c); }
  }

  lemma FetchedOn(cfg: Config, s: State, l: Up.Label, s': State, c: nat)
    requires Within(cfg, l) && Up.Next(cfg.up, s.up, l) == Some(s'.up) && s'.up.At(c).Fetched?
    ensures s.up.At(c) == s'.up.At(c) || s'.up.At(c).key in cfg.sf.keys
  {
  }

  /** Writing begins where the machine has a Put or a backfill to write. */
  lemma WriteRealized(cfg: Config, s0: State, s: State, l: Up.Label) returns (s': State)
    requires SF.Separate(cfg.sf) && Inv(cfg, s) && Rests(s) && Fetches(cfg, s) && Goes(cfg, s0, s)
    requires (l.PutLocal? || (l.Fill? && l.ok)) && Within(cfg, l) && Up.Next(cfg.up, s.up, l).Some?
    ensures Inv(cfg, s') && Rests(s') && Goes(cfg, s0, s') && Up.Next(cfg.up, s.up, l) == Some(s'.up)
  {
    var begin := if l.PutLocal? then BeginPut(l.c, l.key, l.body) else BeginFill(l.c);
    var begun := Next(cfg, s, begin).value;
    BeginIsSeen(cfg, s, begin, begun);
    GoesOn(cfg, s0, s, begin, begun);
    if l.PutLocal? {
      s' := WritesEntry(cfg, s0, s, l.c, l.key, l.body, Some(0));
    } else {
      s' := WritesEntry(cfg, s0, s, l.c, s.up.At(l.c).key, s.up.At(l.c).body, None);
    }
  }

  /** A backfill that fails has been unable to create its tmp file. */
  lemma FailedFillRealized(cfg: Config, s0: State, s: State, c: nat) returns (s': State)
    requires SF.Separate(cfg.sf) && Inv(cfg, s) && Rests(s) && Fetches(cfg, s) && Goes(cfg, s0, s)
    requires Up.Next(cfg.up, s.up, Up.Fill(c, false)).Some?
    ensures Inv(cfg, s') && Rests(s') && Goes(cfg, s0, s') && Up.Next(cfg.up, s.up, Up.Fill(c, false)) == Some(s'.up)
  {
    var k, b := s.up.At(c).key, s.up.At(c).body;
    var begun := Next(cfg, s, BeginFill(c)).value;
    BeginIsSeen(cfg, s, BeginFill(c), begun);
    GoesOn(cfg, s0, s, BeginFill(c), begun);
    var th := Writing(k, b, None, SF.Starting);
    var m := SF.Move(Writing(k, b, None, SF.PutDone(false)), s.fs, None);
    assert begun == At(s, c, s.fs, th);
    Writes(cfg, s0, s, c, s.fs, th, SF.CreateTmp(false), m);
    s' := Landed(cfg, At(s, c, s.fs, th), c, m);
    LandsFailed(cfg, s, c, th, m, s');
  }

  lemma LandsFailed(cfg: Config, s: State, c: nat, th: SF.Thread, m: SF.Move, s': State)
    requires Rests(s) && th.Put? && th.via.None? && m.th == th.(put := SF.PutDone(false))
    requires s' == Landed(cfg, At(s, c, s.fs, th), c, m)
    requires WriteMove(cfg, At(s, c, s.fs, th), c, SF.CreateTmp(false)) == Some(m)
    requires SeenAs(cfg, At(s, c, s.fs, th), Write(c, SF.CreateTmp(false)), s')
    ensures Rests(s') && Up.Next(cfg.up, s.up, Up.Fill(c, false)) == Some(s'.up)
  {
  }

  function Removal(cfg: Config, l: Up.Label): Label
    requires l.Evict? || l.DeleteLocal?
  {
    if l.Evict? then Evict(cfg.sf.path(l.key), Some(l.key)) else Unlink(l.key)
  }

  lemma RemovalGoes(cfg: Config, s: State, l: Up.Label)
    requires SF.Separate(cfg.sf) && Inv(cfg, s) && !s.up.phase.Crashed?
    requires (l.Evict? || l.DeleteLocal?) && l.key in s.up.local
    ensures
      var s' := Next(cfg, s, Removal(cfg, l));
      s'.Some? && s'.value.writers == s.writers && Seen(cfg, s, Removal(cfg, l)) == Some(l)
  {
    FileThere(cfg, s, l.key);
    if l.Evict? { EvictGoes(cfg, s, l.key); } else { UnlinkGoes(cfg, s, l.key); }
  }

  lemma FileThere(cfg: Config, s: State, k: Key)
    requires SF.Separate(cfg.sf) && Inv(cfg, s) && k in s.up.local
    ensures k in cfg.sf.keys && cfg.sf.path(k) in s.fs.dir
  {
    assert SP.ShowsAt(cfg.sf, s.fs, s.up.local, k);
    SA.EntryShown(cfg.sf, s.fs, s.writers, s.up.local, k);
  }

  lemma EvictGoes(cfg: Config, s: State, k: Key)
    requires k in cfg.sf.keys && cfg.sf.path(k) in s.fs.dir && !s.up.phase.Crashed?
    ensures
      var s' := Next(cfg, s, Evict(cfg.sf.path(k), Some(k)));
      s'.Some? && s'.value.writers == s.writers
  {
  }

  lemma UnlinkGoes(cfg: Config, s: State, k: Key)
    requires k in cfg.sf.keys && cfg.sf.path(k) in s.fs.dir && !s.up.phase.Crashed?
    ensures Next(cfg, s, Unlink(k)).Some? && Next(cfg, s, Unlink(k)).value.writers == s.writers
  {
  }

  /** A removal of a key that has a file removes it, and of any other is nothing to the files. */
  lemma RemovalRealized(cfg: Config, s0: State, s: State, l: Up.Label) returns (s': State)
    requires SF.Separate(cfg.sf) && Inv(cfg, s) && Rests(s) && Goes(cfg, s0, s) && !s.up.phase.Crashed?
    requires l.Evict? || l.DeleteLocal?
    ensures Inv(cfg, s') && Rests(s') && Goes(cfg, s0, s') && Up.Next(cfg.up, s.up, l) == Some(s'.up)
  {
    if l.key !in s.up.local {
      NothingRemoved(cfg, s, l);
      s' := s;
    } else {
      RemovalGoes(cfg, s, l);
      s' := Next(cfg, s, Removal(cfg, l)).value;
      StepIsSeen(cfg, s, Removal(cfg, l), s');
      GoesOn(cfg, s0, s, Removal(cfg, l), s');
    }
  }

  lemma NothingRemoved(cfg: Config, s: State, l: Up.Label)
    requires !s.up.phase.Crashed? && (l.Evict? || l.DeleteLocal?) && l.key !in s.up.local
    ensures Up.Next(cfg.up, s.up, l) == Some(s.up)
  {
    assert s.up.local - {l.key} == s.up.local;
  }

  lemma ElsewhereRealized(cfg: Config, s0: State, s: State, l: Up.Label) returns (s': State)
    requires SF.Separate(cfg.sf) && Inv(cfg, s) && Rests(s) && Goes(cfg, s0, s)
    requires Elsewhere(l) && Up.Next(cfg.up, s.up, l).Some?
    ensures Inv(cfg, s') && Rests(s') && Goes(cfg, s0, s') && Up.Next(cfg.up, s.up, l) == Some(s'.up)
  {
    s' := Next(cfg, s, Other(l)).value;
    StepIsSeen(cfg, s, Other(l), s');
    GoesOn(cfg, s0, s, Other(l), s');
  }

  lemma StepRealized(cfg: Config, s0: State, s: State, l: Up.Label) returns (s': State)
    requires SF.Separate(cfg.sf) && Inv(cfg, s) && Rests(s) && Fetches(cfg, s) && Goes(cfg, s0, s)
    requires Within(cfg, l) && Up.Next(cfg.up, s.up, l).Some?
    ensures Inv(cfg, s') && Rests(s') && Fetches(cfg, s') && Goes(cfg, s0, s')
    ensures Up.Next(cfg.up, s.up, l) == Some(s'.up)
  {
    if l.PutLocal? || (l.Fill? && l.ok) { s' := WriteRealized(cfg, s0, s, l); }
    else if l.Fill? { s' := FailedFillRealized(cfg, s0, s, l.c); }
    else if l.Evict? || l.DeleteLocal? { s' := RemovalRealized(cfg, s0, s, l); }
    else { s' := ElsewhereRealized(cfg, s0, s, l); }
    FetchesOn(cfg, s, l, s');
  }

  /**
    Over separate keys, every run of the upload machine over the store's keys is what some run of the files without
    overlapping local writes of one key comes to.
   */
  lemma {:induction false} Realizes(cfg: Config, fs: Fs, s3: map<Key, Bytes>, run: seq<Up.Label>, up: Up.State)
      returns (s: State)
    requires SF.Separate(cfg.sf) && SP.FsInv(cfg.sf, fs, map[]) && forall i :: 0 <= i < |run| ==> Within(cfg, run[i])
    requires Up.Exec(cfg.up, Up.Init(cfg.up, Shown(cfg.sf, fs), s3), run) == Some(up)
    ensures Goes(cfg, Init(cfg, fs, s3), s) && s.up == up
    ensures Inv(cfg, s) && Rests(s) && Fetches(cfg, s)
    decreases |run|
  {
    if run == [] {
      s := Init(cfg, fs, s3);
      ShownShows(cfg.sf, fs);
      GoesNowhere(cfg, s);
    } else {
      var before := run[..|run| - 1];
      var mid := Realizes(cfg, fs, s3, before,
        Up.Exec(cfg.up, Up.Init(cfg.up, Shown(cfg.sf, fs), s3), before).value);
      s := StepRealized(cfg, Init(cfg, fs, s3), mid, run[|run| - 1]);
    }
  }
}
