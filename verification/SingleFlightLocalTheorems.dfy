/** What every run of the single-flight file store guarantees. */
module SingleFlightLocalTheorems {
  import opened Base
  import opened FileSystem
  import opened History
  import opened SingleFlightLocal
  import opened SingleFlightLocalProofs
  import opened SingleFlightLocalWitnesses

  // ---- atomicity, exactly ----

  /**
    Every interleaving in which no two Puts of one key overlap is atomic exactly when the keys are separate: no
    key's file is the root, another key's file, another key's temporary file, or on the way to another key's
    file; and no temporary file is on that way. Whether writers bypass the flight table does not matter.
   */
  lemma AtomicWhenLoneExactly(cfg: Config)
    ensures AtomicWhenLone(cfg) <==> Separate(cfg)
  {
    if Separate(cfg) {
      forall run, s | Exec(cfg, Init(), run) == Some(s) && LoneRun(cfg, Init(), run) ensures Legal(s.log) {
        RunKeeps(cfg, run, s);
      }
    } else {
      CollisionIsSeen(cfg);
    }
  }

  /** Every interleaving at all is atomic exactly when, besides, no writer bypasses the flight table. */
  lemma AtomicExactly(cfg: Config)
    ensures Atomic(cfg) <==> Separate(cfg) && (!cfg.backfill || cfg.keys == {})
  {
    if cfg.keys == {} {
      forall run, s | Exec(cfg, Init(), run) == Some(s) ensures Legal(s.log) { NoKeysNoSteps(cfg, run, s); }
    } else if !Separate(cfg) {
      CollisionIsSeen(cfg);
    } else if cfg.backfill {
      var k :| k in cfg.keys;
      TornBackfillIsSeen(cfg, k);
    } else {
      forall run, s | Exec(cfg, Init(), run) == Some(s) ensures Legal(s.log) {
        FlightsKeepApart(cfg, run, s);
        RunKeeps(cfg, run, s);
      }
    }
  }

  lemma CollisionIsSeen(cfg: Config)
    requires !Separate(cfg)
    ensures Misbehaves(cfg)
  {
    if k :| k in cfg.keys && cfg.path(k) == [] {
      RootIsSeen(cfg, k);
    } else {
      var j, k :| j in cfg.keys && k in cfg.keys && j != k && Collides(cfg.path(j), cfg.path(k));
      if cfg.path(j) == cfg.path(k) { AliasIsSeen(cfg, j, k); }
      else if Tmp(cfg.path(j)) == cfg.path(k) { TmpClashIsSeen(cfg, j, k); }
      else if cfg.path(j) < cfg.path(k) { DirectoryIsSeen(cfg, j, k); }
      else { TmpDirectoryIsSeen(cfg, j, k); }
    }
  }

  /**
    In every run of separate keys in which no two Puts of one key overlap, the log is legal, and its acts build the
    map that the files show.
   */
  lemma FilesRefineMap(cfg: Config, run: seq<Label>, s: State)
    requires Separate(cfg) && Exec(cfg, Init(), run) == Some(s) && LoneRun(cfg, Init(), run)
    ensures Legal(s.log) && Shows(cfg, s.fs, MapOf(s.log))
    ensures forall k :: k in cfg.keys ==> cfg.path(k) !in s.fs.dirs
  {
    RunKeeps(cfg, run, s);
    forall k | k in cfg.keys ensures cfg.path(k) !in s.fs.dirs {
      assert IsEntry(cfg, cfg.path(k));
      KindsApart(cfg, cfg.path(k));
    }
  }

  lemma {:induction false} NoKeysNoSteps(cfg: Config, run: seq<Label>, s: State)
    requires cfg.keys == {} && Exec(cfg, Init(), run) == Some(s)
    ensures s == Init()
    decreases |run|
  {
    if run != [] {
      NoKeysNoSteps(cfg, run[..|run| - 1], Exec(cfg, Init(), run[..|run| - 1]).value);
    }
  }

  // ---- what a legal log says ----

  predicate Occurs(log: Log, e: Event) {
    match log
    case Empty => false
    case Then(before, last) => e == last || Occurs(before, e)
  }

  lemma {:induction false} LastOccurs(log: Log, t: nat)
    ensures Last(log, t).Some? ==>
      Occurs(log, Last(log, t).value) && !Last(log, t).value.Evicted? && Last(log, t).value.t == t
  {
    match log
    case Empty =>
    case Then(before, _) => LastOccurs(before, t);
  }

  /** Whatever the map holds at a key is the whole body of one Put call of that key. */
  lemma {:induction false} ContentWasPut(log: Log, k: Key) returns (t: nat)
    requires Legal(log) && k in MapOf(log)
    ensures Occurs(log, Began(t, PutCall(k, MapOf(log)[k]))) && Occurs(log, Stored(t, k, MapOf(log)[k]))
  {
    match log
    case Then(before, e) =>
      if e.Stored? && e.key == k {
        t := e.t;
        LastOccurs(before, t);
      } else {
        t := ContentWasPut(before, k);
      }
  }

  /** No reader is ever given anything but the whole body of one Put call of its key. */
  lemma {:induction false} DeliveredWasPut(log: Log, e: Event) returns (t: nat)
    requires Legal(log) && Occurs(log, e) && (e.Delivered? || (e.Opened? && e.content.Some?))
    ensures Occurs(log, Began(t, PutCall(e.key, if e.Delivered? then e.body else e.content.value)))
    ensures Occurs(log, Stored(t, e.key, if e.Delivered? then e.body else e.content.value))
  {
    match log
    case Then(before, last) =>
      if last != e {
        t := DeliveredWasPut(before, e);
      } else if e.Delivered? {
        LastOccurs(before, e.t);
        t := DeliveredWasPut(before, Opened(e.t, e.key, Some(e.body)));
      } else {
        t := ContentWasPut(before, e.key);
      }
  }

  // ---- the locks and the flight table ----

  /** The write lock of a shard excludes every other holder of it. */
  ghost predicate Exclusive(cfg: Config, threads: map<nat, Thread>) {
    forall t, u, shard :: t in threads && u in threads && t != u && HoldsWrite(cfg, threads[t], shard) ==>
      !HoldsWrite(cfg, threads[u], shard) && !HoldsRead(cfg, threads[u], shard)
  }

  /** Every flight of the table has a leader at work. */
  ghost predicate Led(s: State) {
    forall n :: n in s.table.flights
        ==> exists t :: t in s.threads && LeaderFlight(s.threads[t]) == Some(s.table.flights[n])
  }

  lemma ActLocks(cfg: Config, fs: Fs, t: nat, th: Thread, act: Act, m: Move, shard: nat)
    requires FileStep(cfg.path, fs, t, th, act) == Some(m)
    ensures HoldsWrite(cfg, m.th, shard)
        ==> HoldsWrite(cfg, th, shard) || (act.WriteLock? && (th.Put? || th.Delete?) && shard == cfg.shard(th.key))
    ensures HoldsRead(cfg, m.th, shard)
        ==> HoldsRead(cfg, th, shard) || (act.ReadLock? && (th.Head? || th.Get?) && shard == cfg.shard(th.key))
  {
  }

  lemma ExclusiveStep(cfg: Config, s: State, l: Label, s': State)
    requires Exclusive(cfg, s.threads) && Next(cfg, s, l) == Some(s')
    ensures Exclusive(cfg, s'.threads)
  {
    if l.Do? {
      var m := FileStep(cfg.path, s.fs, l.t, s.At(l.t), l.act).value;
      forall shard { ActLocks(cfg, s.fs, l.t, s.At(l.t), l.act, m, shard); }
    }
  }

  /** A leader stays in its flight until it settles it. */
  lemma LeaderStays(cfg: Config, s: State, l: Label, s': State, t: nat)
    requires FlightInv(cfg, s.table, s.threads) && Next(cfg, s, l) == Some(s')
    requires t in s.threads && LeaderFlight(s.threads[t]).Some?
    ensures t in s'.threads
    ensures if l == Settle(t) then FlightName(LeaderCall(s.threads[t])) !in s'.table.flights
            else LeaderFlight(s'.threads[t]) == LeaderFlight(s.threads[t])
  {
    assert LeaderOk(cfg, s.table, s.threads[t]);
    if l.Do? && l.t == t {
      ActStaysInCall(cfg, s.table, s.fs, t, s.threads[t], l.act, FileStep(cfg.path, s.fs, t, s.At(t), l.act).value);
    }
  }

  /** The table only gains the entry of a flight that its new leader is in. */
  lemma TableGains(cfg: Config, s: State, l: Label, s': State, n: string)
    requires Next(cfg, s, l) == Some(s') && n in s'.table.flights
    ensures
      || (n in s.table.flights && s.table.flights[n] == s'.table.flights[n])
      || (l.Request? && l.t in s'.threads && LeaderFlight(s'.threads[l.t]) == Some(s'.table.flights[n]))
  {
  }

  lemma LedStep(cfg: Config, s: State, l: Label, s': State)
    requires FlightInv(cfg, s.table, s.threads) && Led(s) && Next(cfg, s, l) == Some(s')
    ensures Led(s')
  {
    forall n | n in s'.table.flights
      ensures exists t :: t in s'.threads && LeaderFlight(s'.threads[t]) == Some(s'.table.flights[n])
    {
      TableGains(cfg, s, l, s', n);
      if n in s.table.flights && s.table.flights[n] == s'.table.flights[n] {
        var t :| t in s.threads && LeaderFlight(s.threads[t]) == Some(s.table.flights[n]);
        assert LeaderOk(cfg, s.table, s.threads[t]);
        LeaderStays(cfg, s, l, s', t);
      }
    }
  }

  lemma {:induction false} LocksAndFlightsInvariant(cfg: Config, run: seq<Label>, s: State)
    requires Exec(cfg, Init(), run) == Some(s)
    ensures Exclusive(cfg, s.threads) && Led(s)
    decreases |run|
  {
    if run != [] {
      var mid := Exec(cfg, Init(), run[..|run| - 1]).value;
      LocksAndFlightsInvariant(cfg, run[..|run| - 1], mid);
      FlightRun(cfg, run[..|run| - 1], mid);
      ExclusiveStep(cfg, mid, run[|run| - 1], s);
      LedStep(cfg, mid, run[|run| - 1], s);
    }
  }

  /** In every run at most one Put and at most one Head of a key is being executed. */
  lemma OneCallPerKey(cfg: Config, run: seq<Label>, s: State, t: nat, u: nat)
    requires Exec(cfg, Init(), run) == Some(s)
    requires t in s.threads && u in s.threads && LeaderFlight(s.threads[t]).Some? && LeaderFlight(s.threads[u]).Some?
    requires s.threads[t].key == s.threads[u].key && (s.threads[t].Put? <==> s.threads[u].Put?)
    ensures t == u
  {
    FlightRun(cfg, run, s);
    assert LeaderOk(cfg, s.table, s.threads[t]) && LeaderOk(cfg, s.table, s.threads[u]);
    assert FlightName(LeaderCall(s.threads[t])) == FlightName(LeaderCall(s.threads[u]));
    assert t != u ==> OtherFlight(s.threads[t], s.threads[u]);
  }

  /** A step of a call in progress, not a new call and not an eviction. */
  predicate Continues(l: Label) { l.Do? || l.Settle? || l.Share? }

  /** A holder of any lock, and a thread that needs none, can always go on. */
  lemma CanGoOn(cfg: Config, s: State, t: nat) returns (l: Label)
    requires t in s.threads && !s.threads[t].Idle? && !s.threads[t].Waiting?
    requires
      var th := s.threads[t];
      HoldsWrite(cfg, th, cfg.shard(th.key)) || HoldsRead(cfg, th, cfg.shard(th.key))
      || (WriteFree(cfg, s.threads, cfg.shard(th.key)) && ReadFree(cfg, s.threads, cfg.shard(th.key)))
    ensures Continues(l) && Next(cfg, s, l).Some?
  {
    match s.threads[t]
    case Put(_, _, _, pc) =>
      l := match pc
           case Starting => Do(t, CreateTmp(false))
           case Copying(_, _) => Do(t, CopyError)
           case Closed(_) => Do(t, WriteLock)
           case Locked(_) => Do(t, RenameTmp(false))
           case Aborting(_) => Do(t, RemoveTmp(false))
           case PutDone(_) => Settle(t);
    case Head(_, _, pc) =>
      l := match pc
           case HeadStarting => Do(t, ReadLock)
           case HeadLocked => Do(t, Stat(false, 0))
           case HeadDone(_) => Settle(t);
    case Get(_, pc) =>
      l := match pc
           case GetStarting => Do(t, ReadLock)
           case GetLocked => Do(t, Open(false))
           case Opening(_, _) => Do(t, StatHandle(false))
           case Streaming(_, _, _, _) => Do(t, Abandon)
           case Directory(locked) => Do(t, if locked then StatHandle(false) else Abandon);
    case Delete(_, locked) => l := if locked then Do(t, Unlink(false)) else Do(t, WriteLock);
  }

  /** The locks and the flight table never deadlock: while any call is in progress, one can go on. */
  lemma NoDeadlock(cfg: Config, run: seq<Label>, s: State, t: nat) returns (l: Label)
    requires Exec(cfg, Init(), run) == Some(s) && !s.At(t).Idle?
    ensures Continues(l) && Next(cfg, s, l).Some?
  {
    FlightRun(cfg, run, s);
    LocksAndFlightsInvariant(cfg, run, s);
    var u := t;
    if s.threads[t].Waiting? {
      if s.threads[t].flight in s.table.results { l := Share(t); return; }
      u := WorkingLeader(cfg, s, t);
    }
    u := LockHolder(cfg, s, u);
    l := CanGoOn(cfg, s, u);
  }

  /** The leader that a follower of an unsettled flight waits for. */
  lemma WorkingLeader(cfg: Config, s: State, t: nat) returns (u: nat)
    requires FlightInv(cfg, s.table, s.threads) && Led(s)
    requires t in s.threads && s.threads[t].Waiting? && s.threads[t].flight !in s.table.results
    ensures u in s.threads && LeaderFlight(s.threads[u]) == Some(s.threads[t].flight)
  {
    assert FollowerOk(s.table, s.threads[t]);
    u :| u in s.threads && LeaderFlight(s.threads[u]) == Some(s.threads[t].flight);
  }

  /** The thread itself when its shard is free, otherwise a holder of the shard's lock. */
  lemma LockHolder(cfg: Config, s: State, t: nat) returns (u: nat)
    requires t in s.threads && !s.threads[t].Idle? && !s.threads[t].Waiting?
    ensures u in s.threads && !s.threads[u].Idle? && !s.threads[u].Waiting?
    ensures
      var th := s.threads[u];
      HoldsWrite(cfg, th, cfg.shard(th.key)) || HoldsRead(cfg, th, cfg.shard(th.key))
      || (WriteFree(cfg, s.threads, cfg.shard(th.key)) && ReadFree(cfg, s.threads, cfg.shard(th.key)))
  {
    u := t;
    var shard := cfg.shard(s.threads[t].key);
    if !WriteFree(cfg, s.threads, shard) {
      u :| u in s.threads && HoldsWrite(cfg, s.threads[u], shard);
    } else if !ReadFree(cfg, s.threads, shard) {
      u :| u in s.threads && HoldsRead(cfg, s.threads[u], shard);
    }
  }

  // ---- acknowledged writes stay readable ----

  /** A label of a content-addressed run: every Put and backfill of k carries f(k); nothing is deleted or evicted. */
  predicate Addressed(cfg: Config, f: Key -> Bytes, l: Label) {
    && (l.Request? && l.call.PutCall? ==> l.call.body == f(l.call.key))
    && (l.Backfill? ==> l.body == f(l.key))
    && (l.Request? ==> !l.call.DeleteCall?)
    && (l.Evict? ==> l.entry.None?)
  }

  ghost predicate AddressedRun(cfg: Config, f: Key -> Bytes, run: seq<Label>) {
    forall i :: 0 <= i < |run| ==> Addressed(cfg, f, run[i])
  }

  /** A caller of Put, leader or follower, has been told that its Put of k succeeded. */
  predicate Acknowledged(log: Log, k: Key) {
    match log
    case Empty => false
    case Then(before, e) =>
      || Acknowledged(before, k)
      || (e.Settled? && e.key == k && e.outcome == PutResult(true))
      || (e.Shared? && e.outcome == PutResult(true) && SettledAs(before, e.flight) == Some((k, PutResult(true))))
  }

  /** Every open after an acknowledgement of its key finds f(k), and every delivered body is f(k). */
  predicate ReadsBack(log: Log, f: Key -> Bytes) {
    match log
    case Empty => true
    case Then(before, e) =>
      && ReadsBack(before, f)
      && (e.Opened? && Acknowledged(before, e.key) ==> e.content == Some(f(e.key)))
      && (e.Delivered? ==> e.body == f(e.key))
  }

  lemma AcknowledgedStaysReadable(cfg: Config, f: Key -> Bytes, run: seq<Label>, s: State)
    requires Separate(cfg) && Exec(cfg, Init(), run) == Some(s) && LoneRun(cfg, Init(), run)
    requires AddressedRun(cfg, f, run)
    ensures ReadsBack(s.log, f)
    ensures forall k :: Acknowledged(s.log, k) ==> k in cfg.keys && s.fs.Content(cfg.path(k)) == Some(f(k))
  {
    RunKeeps(cfg, run, s);
    AddressedLog(cfg, f, run, s);
    LogReadsBack(s.log, f);
    forall k | Acknowledged(s.log, k) ensures k in cfg.keys && s.fs.Content(cfg.path(k)) == Some(f(k)) {
      assert ShowsAt(cfg, s.fs, MapOf(s.log), k);
    }
  }

  /** The acts and beginnings of a content-addressed log. */
  predicate AddressedEvent(f: Key -> Bytes, e: Event) {
    && !e.Removed? && !e.Evicted?
    && (e.Began? && e.call.PutCall? ==> e.call.body == f(e.call.key))
  }

  predicate AddressedEvents(f: Key -> Bytes, log: Log) {
    match log
    case Empty => true
    case Then(before, e) => AddressedEvents(f, before) && AddressedEvent(f, e)
  }

  lemma {:induction false} AddressedLog(cfg: Config, f: Key -> Bytes, run: seq<Label>, s: State)
    requires Exec(cfg, Init(), run) == Some(s) && AddressedRun(cfg, f, run)
    ensures AddressedEvents(f, s.log)
    ensures forall t :: t in s.threads ==> !s.threads[t].Delete?
    decreases |run|
  {
    if run != [] {
      var mid := Exec(cfg, Init(), run[..|run| - 1]).value;
      AddressedLog(cfg, f, run[..|run| - 1], mid);
      var l := run[|run| - 1];
      assert Addressed(cfg, f, l);
      if l.Do? {
        var m := FileStep(cfg.path, mid.fs, l.t, mid.At(l.t), l.act).value;
        ActAddressed(cfg.path, mid.fs, l.t, mid.At(l.t), l.act, m, f);
      }
    }
  }

  lemma ActAddressed(path: Key -> Path, fs: Fs, t: nat, th: Thread, act: Act, m: Move, f: Key -> Bytes)
    requires !th.Delete? && FileStep(path, fs, t, th, act) == Some(m)
    ensures !m.th.Delete? && (m.event.Some? ==> AddressedEvent(f, m.event.value))
  {
  }

  /** The latest event of any thread of a content-addressed log is itself content-addressed. */
  lemma {:induction false} LastAddressed(log: Log, f: Key -> Bytes, t: nat)
    requires AddressedEvents(f, log)
    ensures Last(log, t).Some? ==> AddressedEvent(f, Last(log, t).value)
  {
    match log
    case Empty =>
    case Then(before, _) => LastAddressed(before, f, t);
  }

  /** A thread that has stored has its key, with f(key), in the map ever after. */
  lemma {:induction false} StoredStays(log: Log, f: Key -> Bytes, t: nat)
    requires Legal(log) && AddressedEvents(f, log)
    ensures forall k :: k in MapOf(log) ==> MapOf(log)[k] == f(k)
    ensures Last(log, t).Some? && Last(log, t).value.Stored? ==> Last(log, t).value.key in MapOf(log)
  {
    match log
    case Empty =>
    case Then(before, e) =>
      StoredStays(before, f, t);
      if e.Stored? { LastAddressed(before, f, e.t); }
  }

  /** A flight settled as a successful Put has its key in the map ever after. */
  lemma {:induction false} SettledStays(log: Log, f: Key -> Bytes, flight: nat)
    requires Legal(log) && AddressedEvents(f, log)
    ensures
      var r := SettledAs(log, flight);
      r.Some? && r.value.1 == PutResult(true) ==> r.value.0 in MapOf(log)
  {
    match log
    case Empty =>
    case Then(before, e) =>
      SettledStays(before, f, flight);
      if e.Settled? { StoredStays(before, f, e.t); }
  }

  lemma {:induction false} LogReadsBack(log: Log, f: Key -> Bytes)
    requires Legal(log) && AddressedEvents(f, log)
    ensures ReadsBack(log, f)
    ensures forall k :: Acknowledged(log, k) ==> k in MapOf(log)
    ensures forall k :: k in MapOf(log) ==> MapOf(log)[k] == f(k)
  {
    match log
    case Empty =>
    case Then(before, e) =>
      LogReadsBack(before, f);
      StoredStays(log, f, 0);
      match e
      case Settled(t, _, _, _) => StoredStays(before, f, t);
      case Shared(_, flight, _) => SettledStays(before, f, flight);
      case Delivered(t, k, _, _) => OpenedAddressed(before, f, t);
      case _ =>
  }

  lemma {:induction false} OpenedAddressed(log: Log, f: Key -> Bytes, t: nat)
    requires Legal(log) && AddressedEvents(f, log)
    ensures
      var e := Last(log, t);
      e.Some? && e.value.Opened? && e.value.content.Some? ==> e.value.content.value == f(e.value.key)
  {
    match log
    case Empty =>
    case Then(before, _) =>
      OpenedAddressed(before, f, t);
      StoredStays(before, f, t);
  }
}
