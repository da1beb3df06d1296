/** What S3 has taken when a Put is acknowledged without the queue, with values that change all the while. */
module AsyncAcknowledged {
  import opened Base
  import opened AsyncUpload
  import opened AsyncTermination

  lemma UploaderKeepsClients(cfg: Config, s: State, l: Label, s': State)
    requires UploaderStep(cfg, s, l) == Some(s')
    ensures s'.clients == s.clients
  {
  }

  /** How a client gets to each point of a synchronous upload. */
  lemma ClientArrives(cfg: Config, s: State, l: Label, s': State, c: nat)
    requires ClientStep(cfg, s, l) == Some(s') && s'.At(c) != s.At(c)
    ensures s'.At(c).Stored? ==> l.PutLocal? && l.c == c && l.key == s'.At(c).key
    ensures s'.At(c).Admitted? ==> s.At(c) == Client.Stored(s'.At(c).key)
    ensures s'.At(c).FallingBack? ==> s.At(c) == Client.Stored(s'.At(c).key) || s.At(c) == Admitted(s'.At(c).key)
    ensures s'.At(c).Syncing? && !s'.At(c).applied ==>
      && l == SyncRead(c, true) && s.At(c) == FallingBack(s'.At(c).key)
      && Lookup(s.local, s'.At(c).key) == Some(s'.At(c).body)
    ensures s'.At(c).Syncing? && s'.At(c).applied ==>
      && l == SyncApply(c) && s.At(c) == s'.At(c).(applied := false)
      && Lookup(s'.s3, s'.At(c).key) == Some(s'.At(c).body)
  {
    if l.SyncRead? || l.SyncApply? || l.SyncDone? { SyncArrives(cfg, s, l, s', c); }
    else { PutArrives(cfg, s, l, s', c); }
  }

  lemma PutArrives(cfg: Config, s: State, l: Label, s': State, c: nat)
    requires ClientStep(cfg, s, l) == Some(s') && s'.At(c) != s.At(c)
    requires !l.SyncRead? && !l.SyncApply? && !l.SyncDone?
    ensures s'.At(c).Stored? ==> l.PutLocal? && l.c == c && l.key == s'.At(c).key
    ensures s'.At(c).Admitted? ==> s.At(c) == Client.Stored(s'.At(c).key)
    ensures s'.At(c).FallingBack? ==> s.At(c) == Client.Stored(s'.At(c).key) || s.At(c) == Admitted(s'.At(c).key)
    ensures !s'.At(c).Syncing?
  {
  }

  lemma SyncArrives(cfg: Config, s: State, l: Label, s': State, c: nat)
    requires ClientStep(cfg, s, l) == Some(s') && s'.At(c) != s.At(c)
    requires l.SyncRead? || l.SyncApply? || l.SyncDone?
    ensures !s'.At(c).Stored? && !s'.At(c).Admitted? && !s'.At(c).FallingBack?
    ensures s'.At(c).Syncing? && !s'.At(c).applied ==>
      && l == SyncRead(c, true) && s.At(c) == FallingBack(s'.At(c).key)
      && Lookup(s.local, s'.At(c).key) == Some(s'.At(c).body)
    ensures s'.At(c).Syncing? && s'.At(c).applied ==>
      && l == SyncApply(c) && s.At(c) == s'.At(c).(applied := false)
      && Lookup(s'.s3, s'.At(c).key) == Some(s'.At(c).body)
  {
  }

  /** The last step of a run, when it changed client c. */
  lemma Arrival(cfg: Config, s: State, l: Label, s': State, c: nat)
    requires Next(cfg, s, l) == Some(s') && s'.At(c) != s.At(c)
    ensures ClientStep(cfg, s, l) == Some(s')
  {
    if ClientStep(cfg, s, l).None? { UploaderKeepsClients(cfg, s, l, s'); }
  }

  /** A client that is past its local write, but has not read back, wrote its key in some earlier step of its own. */
  lemma {:induction false} StoredBy(cfg: Config, init: State, run: seq<Label>, s: State, c: nat) returns (p: nat)
    requires init.clients == map[] && Exec(cfg, init, run) == Some(s)
    requires s.At(c).Stored? || s.At(c).Admitted? || s.At(c).FallingBack?
    ensures p < |run| && run[p].PutLocal? && run[p].c == c && run[p].key == s.At(c).key
    decreases |run|
  {
    var l, mid := run[|run| - 1], Exec(cfg, init, run[..|run| - 1]).value;
    if mid.At(c) != s.At(c) {
      Arrival(cfg, mid, l, s, c);
      ClientArrives(cfg, mid, l, s, c);
    }
    if mid.At(c) != s.At(c) && s.At(c).Stored? {
      p := |run| - 1;
    } else {
      p := StoredBy(cfg, init, run[..|run| - 1], mid, c);
    }
  }

  /** In the run client c wrote k to the local store in step p, and read `body` back in step r. */
  ghost predicate ReadIn(cfg: Config, init: State, run: seq<Label>, c: nat, k: Key, body: Bytes, p: nat, r: nat) {
    && p < r < |run| && run[p].PutLocal? && run[p].c == c && run[p].key == k
    && run[r] == SyncRead(c, true) && Exec(cfg, init, run[..r]).Some?
    && Lookup(Exec(cfg, init, run[..r]).value.local, k) == Some(body)
  }

  /** In the run client c's upload in step a left S3 with `body` at k. */
  ghost predicate AppliedIn(cfg: Config, init: State, run: seq<Label>, c: nat, k: Key, body: Bytes, a: nat) {
    && a < |run| && run[a] == SyncApply(c) && Exec(cfg, init, run[..a + 1]).Some?
    && Lookup(Exec(cfg, init, run[..a + 1]).value.s3, k) == Some(body)
  }

  lemma InLonger(
      cfg: Config, init: State, run: seq<Label>, n: nat, c: nat, k: Key, body: Bytes, p: nat, r: nat, a: nat)
    requires n <= |run|
    ensures ReadIn(cfg, init, run[..n], c, k, body, p, r) ==> ReadIn(cfg, init, run, c, k, body, p, r)
    ensures AppliedIn(cfg, init, run[..n], c, k, body, a) ==> AppliedIn(cfg, init, run, c, k, body, a)
  {
    if r < n { assert run[..n][..r] == run[..r]; }
    if a < n { assert run[..n][..a + 1] == run[..a + 1]; }
  }

  /** A client whose synchronous upload is under way read the body from the local store, after its own write. */
  lemma {:induction false} ReadBy(cfg: Config, init: State, run: seq<Label>, s: State, c: nat) returns (p: nat, r: nat)
    requires init.clients == map[] && Exec(cfg, init, run) == Some(s) && s.At(c).Syncing? && !s.At(c).applied
    ensures ReadIn(cfg, init, run, c, s.At(c).key, s.At(c).body, p, r)
    decreases |run|
  {
    var n := |run| - 1;
    var l, mid := run[n], Exec(cfg, init, run[..n]).value;
    if mid.At(c) == s.At(c) {
      p, r := ReadBy(cfg, init, run[..n], mid, c);
      InLonger(cfg, init, run, n, c, s.At(c).key, s.At(c).body, p, r, 0);
    } else {
      Arrival(cfg, mid, l, s, c);
      ClientArrives(cfg, mid, l, s, c);
      p := StoredBy(cfg, init, run[..n], mid, c);
      r := n;
    }
  }

  /** A client whose upload S3 has taken: the step that did it left S3 with the body the client had read. */
  lemma {:induction false} AppliedBy(cfg: Config, init: State, run: seq<Label>, s: State, c: nat)
    returns (p: nat, r: nat, a: nat)
    requires init.clients == map[] && Exec(cfg, init, run) == Some(s) && s.At(c).Syncing? && s.At(c).applied
    ensures ReadIn(cfg, init, run, c, s.At(c).key, s.At(c).body, p, r) && r < a
    ensures AppliedIn(cfg, init, run, c, s.At(c).key, s.At(c).body, a)
    decreases |run|
  {
    var n := |run| - 1;
    var l, mid := run[n], Exec(cfg, init, run[..n]).value;
    if mid.At(c) == s.At(c) {
      p, r, a := AppliedBy(cfg, init, run[..n], mid, c);
    } else {
      Arrival(cfg, mid, l, s, c);
      ClientArrives(cfg, mid, l, s, c);
      p, r := ReadBy(cfg, init, run[..n], mid, c);
      a := n;
      assert run[..n + 1] == run;
    }
    InLonger(cfg, init, run, n, c, s.At(c).key, s.At(c).body, p, r, a);
  }

  /**
    Values may change all the while: when a Put returns nil after the queue is closed, its client wrote its key
    to the local store in step p, read a body back in step r, and its upload in step a left S3 with that body.
   */
  lemma AckAfterCloseWasStored(
      cfg: Config, local: map<Key, Bytes>, s3: map<Key, Bytes>, run: seq<Label>, s: State, l: Label, s': State)
    returns (p: nat, r: nat, a: nat, body: Bytes)
    requires Exec(cfg, Init(cfg, local, s3), run) == Some(s) && !QueueOpen(s) && Next(cfg, s, l) == Some(s')
    requires Acknowledges(cfg, s, l)
    ensures l.SyncDone? && s'.acked == s.acked + {s.At(l.c).key} && r < a
    ensures ReadIn(cfg, Init(cfg, local, s3), run, l.c, s.At(l.c).key, body, p, r)
    ensures AppliedIn(cfg, Init(cfg, local, s3), run, l.c, s.At(l.c).key, body, a)
  {
    AckAfterCloseIsInS3(cfg, s, l, s');
    p, r, a := AppliedBy(cfg, Init(cfg, local, s3), run, s, l.c);
    body := s.At(l.c).body;
  }
}
