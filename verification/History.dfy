/**
  What it means for a run of the single-flight file store to be atomic. The log records, for each
  thread, the beginning of a call, the one moment at which it acts on the store, and its return.
  A log is legal when the acts form a sequential history of a map from keys to bytes, every call that
  reaches the backend acts between its beginning and its return, and every result is the one the act
  produced. A call that joins a flight is exempt: it makes no act of its own, and is only asked to return
  what the flight it joined was settled with. When that was an act during its own call is a theorem.
 */
module History {
  import opened Base

  datatype Call =
    | PutCall(key: Key, body: Bytes)
    | HeadCall(key: Key)
    | GetCall(key: Key)
    | DeleteCall(key: Key)

  /** The result of a de-duplicated call, shared by its leader and its followers. */
  datatype Outcome =
    | PutResult(ok: bool)
    | HeadResult(found: Option<nat>)
    | HeadError

  datatype Event =
    // beginnings
    | Began(t: nat, call: Call)
    | Joined(t: nat, flight: nat, call: Call)
    // acts
    | Stored(t: nat, key: Key, body: Bytes)
    | Removed(t: nat, key: Key)
    | Opened(t: nat, key: Key, content: Option<Bytes>)
    | OpenedDirectory(t: nat, key: Key)    // an entry is announced, but no byte of it can be read
    | Statted(t: nat, key: Key, found: Option<nat>)
    | Evicted(key: Key)
    // returns
    | Settled(t: nat, flight: nat, key: Key, outcome: Outcome)
    | Shared(t: nat, flight: nat, outcome: Outcome)
    | Backfilled(t: nat, ok: bool)
    | Delivered(t: nat, key: Key, body: Bytes, size: nat)
    | GetFailed(t: nat)
    | DeleteFailed(t: nat)

  datatype Log = Empty | Then(before: Log, event: Event)

  /** The map that the acts of a log build. */
  function MapOf(log: Log): map<Key, Bytes> {
    match log
    case Empty => map[]
    case Then(before, e) =>
      var m := MapOf(before);
      match e
      case Stored(_, k, b) => m[k := b]
      case Removed(_, k) => m - {k}
      case Evicted(k) => m - {k}
      case _ => m
  }

  /** The latest event of thread t. */
  function Last(log: Log, t: nat): Option<Event> {
    match log
    case Empty => None
    case Then(before, e) => if !e.Evicted? && e.t == t then Some(e) else Last(before, t)
  }

  /** The key and outcome with which a flight was settled. */
  function SettledAs(log: Log, flight: nat): Option<(Key, Outcome)> {
    match log
    case Empty => None
    case Then(before, e) =>
      if e.Settled? && e.flight == flight then Some((e.key, e.outcome)) else SettledAs(before, flight)
  }

  predicate IsReturn(e: Event) {
    e.Settled? || e.Shared? || e.Backfilled? || e.Delivered? || e.GetFailed? || e.DeleteFailed?
    || e.Removed? || (e.Opened? && e.content.None?)
  }

  /** Thread t has no call in progress. */
  predicate Quiet(log: Log, t: nat) {
    var e := Last(log, t);
    e.None? || IsReturn(e.value)
  }

  predicate LegalNext(log: Log, e: Event) {
    match e
    case Began(t, _) => Quiet(log, t)
    case Joined(t, f, _) => Quiet(log, t) && SettledAs(log, f) == None
    case Stored(t, k, b) => Last(log, t) == Some(Began(t, PutCall(k, b)))
    case Removed(t, k) => Last(log, t) == Some(Began(t, DeleteCall(k)))
    case Opened(t, k, content) =>
      Last(log, t) == Some(Began(t, GetCall(k))) && content == Lookup(MapOf(log), k)
    case OpenedDirectory(t, k) => Last(log, t) == Some(Began(t, GetCall(k))) && k in MapOf(log)
    case Statted(t, k, size) =>
      Last(log, t) == Some(Began(t, HeadCall(k))) && size == SizeOf(Lookup(MapOf(log), k))
    case Evicted(_) => true
    case Settled(t, f, k, r) => SettledAs(log, f) == None && LegalOutcome(Last(log, t), t, k, r)
    case Shared(t, f, r) =>
      var last := Last(log, t);
      && last.Some? && last.value.Joined? && last.value.flight == f
      && SettledAs(log, f) == Some((last.value.call.key, r))
      && (last.value.call.PutCall? <==> r.PutResult?)
    case Backfilled(t, ok) =>
      var last := Last(log, t);
      last.Some? && if ok then last.value.Stored? else last.value.Began? && last.value.call.PutCall?
    case Delivered(t, k, body, size) => Last(log, t) == Some(Opened(t, k, Some(body))) && size == |body|
    case GetFailed(t) =>
      var last := Last(log, t);
      && last.Some?
      && ((last.value.Began? && last.value.call.GetCall?)
          || (last.value.Opened? && last.value.content.Some?)
          || last.value.OpenedDirectory?)
    case DeleteFailed(t) =>
      var last := Last(log, t);
      last.Some? && last.value.Began? && last.value.call.DeleteCall?
  }

  /** A leader reports success only after its act, and failure only when it never acted. */
  predicate LegalOutcome(last: Option<Event>, t: nat, k: Key, r: Outcome) {
    && last.Some?
    && match r
       case PutResult(true) => last.value.Stored? && last.value.key == k
       case PutResult(false) => last.value.Began? && last.value.call.PutCall? && last.value.call.key == k
       case HeadResult(found) => last == Some(Statted(t, k, found))
       case HeadError => last == Some(Began(t, HeadCall(k)))
  }

  predicate Legal(log: Log) {
    match log
    case Empty => true
    case Then(before, e) => Legal(before) && LegalNext(before, e)
  }
}
