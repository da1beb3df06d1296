/**
  What the upload machine promises, on the files: durability of acknowledged Puts and agreement of the tiers, as long
  as no two local writes of one key overlap, and for no kind of overlap beyond that.
 */
module HybridFilesTheorems {
  import opened Base
  import opened FileSystem
  import SF = SingleFlightLocal
  import SP = SingleFlightLocalProofs
  import Up = AsyncUpload
  import AA = AsyncAccounting
  import AD = AsyncDurability
  import AC = AsyncConvergence
  import opened HybridFiles

  // ---- durability ----

  /** A content-addressed label: a Put carries f(k), and nothing is deleted. */
  predicate Addressed(f: Key -> Bytes, l: Label) {
    && (l.BeginPut? ==> l.body == f(l.key))
    && !l.Unlink? && !(l.Other? && l.l.DeleteS3?)
  }

  ghost predicate AddressedRun(f: Key -> Bytes, run: seq<Label>) {
    forall i :: 0 <= i < |run| ==> Addressed(f, run[i])
  }

  /** k is in S3 with its bytes, or its upload is still to come, or it is in the ledger of losses. */
  ghost predicate Secured(f: Key -> Bytes, up: Up.State, k: Key) {
    || Lookup(up.s3, k) == Some(f(k))
    || AA.InSeq(up.queue, k) || AA.InHand(up.workers, k) || AA.InSeq(up.sleepers, k)
    || AA.InSeq(up.missing, k) || AA.InSeq(up.exhausted, k) || AA.InSeq(up.dropped, k)
  }

  /** S3 and the files hold nothing but the bytes of their keys, and every acknowledged key is secured. */
  ghost predicate Intact(cfg: Config, f: Key -> Bytes, s: State) {
    && AD.Holds(f, s.up.s3) && AD.Holds(f, Shown(cfg.sf, s.fs))
    && forall k :: k in s.up.acked ==> Secured(f, s.up, k)
  }

  ghost predicate PutsCarry(f: Key -> Bytes, s: State) {
    forall c: nat :: s.At(c).Put? && s.At(c).via.Some? ==> s.At(c).body == f(s.At(c).key)
  }

  lemma PutsCarryOn(cfg: Config, f: Key -> Bytes, s: State, l: Label, s': State)
    requires Next(cfg, s, l) == Some(s') && Addressed(f, l) && PutsCarry(f, s)
    ensures PutsCarry(f, s')
  {
    if l.Write? {
      var m := WriteMove(cfg, s, l.c, l.act).value;
      SP.PutMoves(cfg.sf.path, s.fs, l.c, s.At(l.c), l.act, m);
    }
    forall c: nat | s'.At(c).Put? && s'.At(c).via.Some? ensures s'.At(c).body == f(s'.At(c).key) {
      assert s.At(c).Put? && s.At(c).via.Some? ==> s.At(c).body == f(s.At(c).key);
    }
  }

  lemma SeenIsAddressed(cfg: Config, f: Key -> Bytes, s: State, l: Label)
    requires Next(cfg, s, l).Some? && Addressed(f, l) && PutsCarry(f, s) && Seen(cfg, s, l).Some?
    ensures AD.Addressed(f, Seen(cfg, s, l).value)
  {
    if l.Write? { assert s.At(l.c).via.Some? ==> s.At(l.c).body == f(s.At(l.c).key); }
  }

  lemma {:induction false} AddressedSeen(cfg: Config, f: Key -> Bytes, fs: Fs, s3: map<Key, Bytes>, run: seq<Label>,
      s: State)
    requires Exec(cfg, Init(cfg, fs, s3), run) == Some(s) && AddressedRun(f, run)
    ensures PutsCarry(f, s) && AD.AddressedRun(f, RunSeen(cfg, Init(cfg, fs, s3), run))
    decreases |run|
  {
    if run != [] {
      var mid := Exec(cfg, Init(cfg, fs, s3), run[..|run| - 1]).value;
      AddressedSeen(cfg, f, fs, s3, run[..|run| - 1], mid);
      PutsCarryOn(cfg, f, mid, run[|run| - 1], s);
      if Seen(cfg, mid, run[|run| - 1]).Some? { SeenIsAddressed(cfg, f, mid, run[|run| - 1]); }
    }
  }

  /**
    With any number of workers, evictions, backfills and S3 failures, whatever the Puts and the backfills do in
    between their file-system calls: when no two local writes of one key overlap, nothing but f(k) is ever
    stored at k, and an acknowledged key is secured.
   */
  lemma FilesDurable(cfg: Config, f: Key -> Bytes, fs: Fs, s3: map<Key, Bytes>, run: seq<Label>, s: State)
    requires SF.Separate(cfg.sf) && SP.FsInv(cfg.sf, fs, map[]) && AD.Holds(f, Shown(cfg.sf, fs)) && AD.Holds(f, s3)
    requires Exec(cfg, Init(cfg, fs, s3), run) == Some(s) && RunOverlaps(cfg, Init(cfg, fs, s3), run, {})
    requires AddressedRun(f, run)
    ensures Intact(cfg, f, s)
  {
    Simulates(cfg, fs, s3, run, s);
    AddressedSeen(cfg, f, fs, s3, run, s);
    var seen := RunSeen(cfg, Init(cfg, fs, s3), run);
    AD.DurableRun(cfg.up, f, Shown(cfg.sf, fs), s3, seen, s.up);
    forall k | k in s.up.acked ensures Secured(f, s.up, k) {
      AD.Durability(cfg.up, f, Shown(cfg.sf, fs), s3, seen, s.up, k);
    }
  }

  // ---- agreement ----

  /**
    Values may change: when no two local writes of one key overlap and the run keeps to the guard of
    convergence, a key with no upload to come and none lost is in S3 with what its file holds.
   */
  lemma FilesConverge(cfg: Config, fs: Fs, s3: map<Key, Bytes>, run: seq<Label>, s: State, k: Key)
    requires SF.Separate(cfg.sf) && SP.FsInv(cfg.sf, fs, map[]) && AC.Coherent(Shown(cfg.sf, fs), s3)
    requires Exec(cfg, Init(cfg, fs, s3), run) == Some(s) && RunOverlaps(cfg, Init(cfg, fs, s3), run, {})
    requires
      AC.GuardedRun(cfg.up, Up.Init(cfg.up, Shown(cfg.sf, fs), s3), RunSeen(cfg, Init(cfg, fs, s3), run))
    requires AC.Settled(s.up, k) && !AC.Lost(s.up, k) && k in cfg.sf.keys
    ensures
      var content := s.fs.Content(cfg.sf.path(k));
      content.Some? ==> Lookup(s.up.s3, k) == content
  {
    Simulates(cfg, fs, s3, run, s);
    AC.GuardedConverges(cfg.up, Shown(cfg.sf, fs), s3, RunSeen(cfg, Init(cfg, fs, s3), run), s.up, k);
  }
}
