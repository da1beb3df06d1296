/** When the program can crash by a send on the queue that Stop has closed. */
module AsyncCrash {
  import opened Base
  import opened AsyncUpload
  import opened AsyncAccounting
  import opened AsyncTermination

  predicate TriesLeft(cfg: Config, it: Item) { it.attempts + 1 < cfg.maxRetry }

  /**
    Something that can still be sent to the queue: an Enqueue past its check, a sleeping retry, or an item queued
    or in a worker's hands that would be retried if its upload failed.
   */
  ghost predicate Volatile(cfg: Config, s: State) {
    || s.sleepers != []
    || (exists c: nat :: s.At(c).Admitted?)
    || (exists i :: 0 <= i < |s.queue| && TriesLeft(cfg, s.queue[i]))
    || (exists w :: HoldsTries(cfg, s, w))
  }

  predicate HoldsTries(cfg: Config, s: State, w: int) {
    && 0 <= w < |s.workers| && (s.workers[w].Holding? || s.workers[w].Uploading?)
    && TriesLeft(cfg, s.workers[w].item)
  }

  ghost predicate CanCrash(cfg: Config, s: State) {
    exists run, s' :: Exec(cfg, s, run) == Some(s') && s'.phase.Crashed?
  }

  // ---- what is volatile can crash ----

  lemma ExecLast(cfg: Config, s: State, run: seq<Label>, before: seq<Label>, l: Label)
    requires run == before + [l]
    ensures
      var mid := Exec(cfg, s, before);
      Exec(cfg, s, run) == if mid.None? then None else Next(cfg, mid.value, l)
  {
    assert run[..|run| - 1] == before;
  }

  lemma {:induction false} ExecFirst(cfg: Config, s: State, l: Label, mid: State, run: seq<Label>)
    requires Next(cfg, s, l) == Some(mid)
    ensures Exec(cfg, s, [l] + run) == Exec(cfg, mid, run)
    decreases |run|
  {
    if run == [] {
      assert [l] + run == [l] && [l][..0] == [];
    } else {
      ExecFirst(cfg, s, l, mid, run[..|run| - 1]);
      ExecLast(cfg, s, [l] + run, [l] + run[..|run| - 1], run[|run| - 1]);
      ExecLast(cfg, mid, run, run[..|run| - 1], run[|run| - 1]);
    }
  }

  lemma CrashLater(cfg: Config, s: State, l: Label, mid: State)
    requires Next(cfg, s, l) == Some(mid) && CanCrash(cfg, mid)
    ensures CanCrash(cfg, s)
  {
    var run, s' :| Exec(cfg, mid, run) == Some(s') && s'.phase.Crashed?;
    ExecFirst(cfg, s, l, mid, run);
  }

  lemma CrashNow(cfg: Config, s: State, l: Label)
    requires Next(cfg, s, l).Some? && Next(cfg, s, l).value.phase.Crashed?
    ensures CanCrash(cfg, s)
  {
    assert [l][..0] == [];
    assert Exec(cfg, s, [l]) == Next(cfg, s, l);
  }

  /** A retry that falls asleep wakes up to a closed queue. */
  lemma SleeperCrashes(cfg: Config, s: State)
    requires s.sleepers != [] && !QueueOpen(s) && !s.phase.Crashed?
    ensures CanCrash(cfg, s)
  {
    CrashNow(cfg, s, Wake(0));
  }

  lemma UploadingCrashes(cfg: Config, s: State, w: nat)
    requires w < |s.workers| && s.workers[w].Uploading? && TriesLeft(cfg, s.workers[w].item)
    requires !QueueOpen(s) && !s.phase.Crashed?
    ensures CanCrash(cfg, s)
  {
    var s' := Next(cfg, s, Finish(w, false)).value;
    SleeperCrashes(cfg, s');
    CrashLater(cfg, s, Finish(w, false), s');
  }

  lemma HoldingCrashes(cfg: Config, s: State, w: nat)
    requires w < |s.workers| && s.workers[w].Holding? && TriesLeft(cfg, s.workers[w].item)
    requires s.workers[w].item.key in s.local && !QueueOpen(s) && !s.phase.Crashed?
    ensures CanCrash(cfg, s)
  {
    var s' := Next(cfg, s, Read(w, true)).value;
    UploadingCrashes(cfg, s', w);
    CrashLater(cfg, s, Read(w, true), s');
  }

  lemma {:induction false} Above(keys: set<nat>) returns (c: nat)
    ensures forall x :: x in keys ==> x < c
  {
    if x :| x in keys {
      var d := Above(keys - {x});
      c := if x < d then d else x + 1;
      assert forall y :: y in keys ==> y == x || y in keys - {x};
    } else {
      c := 0;
    }
  }

  /** An item in hand crashes when its upload fails; when its local entry is gone, some Put may bring it back. */
  lemma HeldCrashes(cfg: Config, s: State, w: nat)
    requires HoldsTries(cfg, s, w) && !QueueOpen(s) && !s.phase.Crashed?
    ensures CanCrash(cfg, s)
  {
    var k := s.workers[w].item.key;
    if s.workers[w].Uploading? {
      UploadingCrashes(cfg, s, w);
    } else if k in s.local {
      HoldingCrashes(cfg, s, w);
    } else {
      var c := Above(s.clients.Keys);
      var s' := Next(cfg, s, PutLocal(c, k, [])).value;
      HoldingCrashes(cfg, s', w);
      CrashLater(cfg, s, PutLocal(c, k, []), s');
    }
  }

  /** A worker that is not idle becomes so, or the program can crash. */
  lemma FreesWorker(cfg: Config, s: State, i: nat) returns (l: Label, s': State)
    requires !QueueOpen(s) && !s.phase.Crashed? && i < |s.queue| && s.sleepers == []
    requires 0 < |s.workers| && (s.workers[0].Holding? || s.workers[0].Uploading?) && !HoldsTries(cfg, s, 0)
    ensures Next(cfg, s, l) == Some(s') && s'.workers == s.workers[0 := Idle]
    ensures s'.queue == s.queue && s'.phase == s.phase && s'.sleepers == s.sleepers
  {
    l := if s.workers[0].Holding? then Read(0, false) else Finish(0, false);
    s' := Next(cfg, s, l).value;
  }

  /** A queued item is taken in the end. */
  lemma {:induction false} QueuedCrashes(cfg: Config, s: State, i: nat)
    requires !QueueOpen(s) && !s.phase.Crashed? && i < |s.queue| && TriesLeft(cfg, s.queue[i])
    requires 0 < |s.workers| && !s.workers[0].Exited?
    ensures CanCrash(cfg, s)
    decreases i, if s.workers[0].Idle? then 1 else 2
  {
    if s.sleepers != [] {
      SleeperCrashes(cfg, s);
    } else if HoldsTries(cfg, s, 0) {
      HeldCrashes(cfg, s, 0);
    } else if !s.workers[0].Idle? {
      var l, s' := FreesWorker(cfg, s, i);
      QueuedCrashes(cfg, s', i);
      CrashLater(cfg, s, l, s');
    } else {
      TakesOn(cfg, s, i);
    }
  }

  lemma {:induction false} TakesOn(cfg: Config, s: State, i: nat)
    requires !QueueOpen(s) && !s.phase.Crashed? && i < |s.queue| && TriesLeft(cfg, s.queue[i])
    requires 0 < |s.workers| && s.workers[0].Idle? && s.sleepers == []
    ensures CanCrash(cfg, s)
    decreases i, 0
  {
    var held := Next(cfg, s, Take(0)).value;
    if i == 0 {
      HeldCrashes(cfg, held, 0);
    } else {
      var rest := Next(cfg, held, Read(0, false)).value;
      assert rest.workers[0].Idle? && rest.queue == s.queue[1..];
      QueuedCrashes(cfg, rest, i - 1);
      CrashLater(cfg, held, Read(0, false), rest);
    }
    CrashLater(cfg, s, Take(0), held);
  }

  // ---- what is not, cannot ----

  lemma ClientStaysHarmless(cfg: Config, s: State, l: Label, s': State)
    requires ClientStep(cfg, s, l) == Some(s') && !QueueOpen(s) && !s.phase.Crashed? && !Volatile(cfg, s)
    ensures !QueueOpen(s') && !s'.phase.Crashed? && !Volatile(cfg, s')
  {
    if l.Send? { assert !s.At(l.c).Admitted?; }
    ClientItems(cfg, s, l, s');
    assert Accepted(cfg, s, l).None?;
    forall w ensures !HoldsTries(cfg, s', w) { assert !HoldsTries(cfg, s, w); }
    forall c: nat ensures !s'.At(c).Admitted? { NotAdmitted(cfg, s, l, s', c); }
  }

  lemma NotAdmitted(cfg: Config, s: State, l: Label, s': State, c: nat)
    requires ClientStep(cfg, s, l) == Some(s') && !s.phase.Running? && !s.At(c).Admitted?
    ensures !s'.At(c).Admitted?
  {
  }

  lemma UploaderStaysHarmless(cfg: Config, s: State, l: Label, s': State)
    requires UploaderStep(cfg, s, l) == Some(s') && !QueueOpen(s) && !s.phase.Crashed? && !Volatile(cfg, s)
    ensures !QueueOpen(s') && !s'.phase.Crashed? && !Volatile(cfg, s')
  {
    UploaderLeavesHarmless(cfg, s, l, s');
    forall c: nat ensures !s'.At(c).Admitted? { assert !s.At(c).Admitted?; }
    forall w ensures !HoldsTries(cfg, s', w) {
      UploaderWorkers(cfg, s, l, s');
      assert !HoldsTries(cfg, s, w);
    }
  }

  lemma UploaderLeavesHarmless(cfg: Config, s: State, l: Label, s': State)
    requires UploaderStep(cfg, s, l) == Some(s') && !QueueOpen(s) && !s.phase.Crashed? && s.sleepers == []
    requires forall i :: 0 <= i < |s.queue| ==> !TriesLeft(cfg, s.queue[i])
    requires forall w :: !HoldsTries(cfg, s, w)
    ensures !QueueOpen(s') && !s'.phase.Crashed? && s'.clients == s.clients && s'.sleepers == []
    ensures forall i :: 0 <= i < |s'.queue| ==> !TriesLeft(cfg, s'.queue[i])
    ensures IsUploaderLabel(l) && !l.Wake? && l.w < |s'.workers| ==> !HoldsTries(cfg, s', l.w)
  {
    if l.Read? || l.Apply? || l.Finish? { assert !HoldsTries(cfg, s, l.w); }
  }

  lemma {:induction false} StaysHarmless(cfg: Config, s: State, run: seq<Label>, s': State)
    requires !QueueOpen(s) && !s.phase.Crashed? && !Volatile(cfg, s) && Exec(cfg, s, run) == Some(s')
    ensures !QueueOpen(s') && !s'.phase.Crashed? && !Volatile(cfg, s')
    decreases |run|
  {
    if run != [] {
      var mid, l := Exec(cfg, s, run[..|run| - 1]).value, run[|run| - 1];
      StaysHarmless(cfg, s, run[..|run| - 1], mid);
      if ClientStep(cfg, mid, l).Some? { ClientStaysHarmless(cfg, mid, l, s'); }
      else { UploaderStaysHarmless(cfg, mid, l, s'); }
    }
  }

  // ---- exactly ----

  /**
    From the moment Stop has closed the queue, before and after it returns: a crash can still follow exactly when
    something is left that can be sent to the queue.
   */
  lemma CrashAfterCloseExactly(cfg: Config, local: map<Key, Bytes>, s3: map<Key, Bytes>, run: seq<Label>, s: State)
    requires cfg.Valid() && Exec(cfg, Init(cfg, local, s3), run) == Some(s) && !QueueOpen(s) && !s.phase.Crashed?
    ensures CanCrash(cfg, s) <==> Volatile(cfg, s)
  {
    StopInvRun(cfg, local, s3, run, s);
    Conservation(cfg, local, s3, run, s);
    if s.sleepers != [] {
      SleeperCrashes(cfg, s);
    } else if c: nat :| s.At(c).Admitted? {
      CrashNow(cfg, s, Send(c));
    } else if i :| 0 <= i < |s.queue| && TriesLeft(cfg, s.queue[i]) {
      QueuedCrashes(cfg, s, i);
    } else if w :| HoldsTries(cfg, s, w) {
      HeldCrashes(cfg, s, w);
    } else {
      forall more, s' | Exec(cfg, s, more) == Some(s') ensures !s'.phase.Crashed? { StaysHarmless(cfg, s, more, s'); }
    }
  }

  /** Once Stop has returned, only a sleeping retry or an Enqueue past its check is left to crash. */
  lemma CrashAfterStopExactly(cfg: Config, local: map<Key, Bytes>, s3: map<Key, Bytes>, run: seq<Label>, s: State)
    requires cfg.Valid() && Exec(cfg, Init(cfg, local, s3), run) == Some(s) && s.phase.Stopped?
    ensures CanCrash(cfg, s) <==> s.sleepers != [] || exists c: nat :: s.At(c).Admitted?
  {
    StopDrains(cfg, local, s3, run, s);
    CrashAfterCloseExactly(cfg, local, s3, run, s);
    forall w ensures !HoldsTries(cfg, s, w) { if 0 <= w < |s.workers| { assert s.workers[w].Exited?; } }
  }

  // ---- a crash after Stop has returned ----

  /** An Enqueue of k is past its check, the queue is closed, and the first m workers have exited. */
  function Closing(cfg: Config, k: Key, m: nat): State {
    Init(cfg, map[k := []], map[]).(
      workers := seq(cfg.workers, w => if w < m then Exited else Idle),
      clients := map[0 := Admitted(k)], phase := Closed)
  }

  ghost predicate Runs(cfg: Config, s: State) { exists run :: Exec(cfg, Init(cfg, map[], map[]), run) == Some(s) }

  lemma RunsOn(cfg: Config, s: State, l: Label, s': State)
    requires Runs(cfg, s) && Next(cfg, s, l) == Some(s')
    ensures Runs(cfg, s')
  {
    var run :| Exec(cfg, Init(cfg, map[], map[]), run) == Some(s);
    assert (run + [l])[..|run|] == run;
    assert Exec(cfg, Init(cfg, map[], map[]), run + [l]) == Some(s');
  }

  /** An Enqueue is past its check */
  lemma EnqueueChecks(cfg: Config, k: Key)
    ensures Runs(cfg, Init(cfg, map[k := []], map[]).(clients := map[0 := Admitted(k)]))
  {
    var init := Init(cfg, map[], map[]);
    assert Exec(cfg, init, []) == Some(init);
    var stored := Init(cfg, map[k := []], map[]).(clients := map[0 := Client.Stored(k)]);
    RunsOn(cfg, init, PutLocal(0, k, []), stored);
    var admitted := stored.(clients := map[0 := Admitted(k)]);
    assert stored.clients[0 := Admitted(k)] == admitted.clients;
    RunsOn(cfg, stored, CheckRunning(0), admitted);
  }

  /** ... when Stop closes the queue. */
  lemma {:induction false} WorkersExit(cfg: Config, k: Key, m: nat)
    requires m <= cfg.workers
    ensures Runs(cfg, Closing(cfg, k, m))
  {
    if m == 0 {
      EnqueueChecks(cfg, k);
      StopCloses(cfg, k);
    } else {
      WorkersExit(cfg, k, m - 1);
      ExitLands(cfg, k, m - 1);
      RunsOn(cfg, Closing(cfg, k, m - 1), Exit(m - 1), Closing(cfg, k, m));
    }
  }

  lemma StopCloses(cfg: Config, k: Key)
    requires Runs(cfg, Init(cfg, map[k := []], map[]).(clients := map[0 := Admitted(k)]))
    ensures Runs(cfg, Closing(cfg, k, 0))
  {
    var admitted := Init(cfg, map[k := []], map[]).(clients := map[0 := Admitted(k)]);
    RunsOn(cfg, admitted, ClearRunning, admitted.(phase := Stopping));
    RunsOn(cfg, admitted.(phase := Stopping), Close, admitted.(phase := Closed));
    assert Closing(cfg, k, 0).workers == admitted.workers;
  }

  lemma ExitLands(cfg: Config, k: Key, m: nat)
    requires m < cfg.workers
    ensures Next(cfg, Closing(cfg, k, m), Exit(m)) == Some(Closing(cfg, k, m + 1))
  {
    assert Closing(cfg, k, m).workers[m := Exited] == Closing(cfg, k, m + 1).workers;
  }

  /** With any configuration some run without a failure crashes after Stop has returned. */
  lemma CrashAfterStopIsReached(cfg: Config, k: Key)
    requires cfg.Valid()
    ensures exists s :: Runs(cfg, s) && s.phase.Stopped? && CanCrash(cfg, s)
  {
    WorkersExit(cfg, k, cfg.workers);
    var s := Closing(cfg, k, cfg.workers).(phase := Stopped);
    RunsOn(cfg, Closing(cfg, k, cfg.workers), StopReturns, s);
    CrashNow(cfg, s, Send(0));
  }
}
