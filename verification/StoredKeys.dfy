/** Which sets of requested keys the single-flight file store serves atomically. */
module StoredKeys {
  import opened Base
  import opened CachePath
  import opened FileSystem
  import SF = SingleFlightLocal
  import opened SingleFlightLocalTheorems

  /** The file of a key, as its names below the root. */
  function FileOf(key: Key): Path { Names(Split(key)) }

  /** The file of a key and its temporary file are where the local backend puts them. */
  lemma FileOfIsLocalPath(root: string, cacheID: string, entryKey: string)
    requires Normal(cacheID, entryKey)
    ensures
      var key := StorageKey(cacheID, entryKey);
      && LocalPath(root, key) == Render(Rooted(root), Segments(root) + FileOf(key))
      && (FileOf(key) != [] ==> LocalPath(root, key) + TMP == Render(Rooted(root), Segments(root) + Tmp(FileOf(key))))
  {
    var key := StorageKey(cacheID, entryKey);
    NamesOfKey(cacheID, entryKey);
    LocalSegments(root, cacheID, entryKey);
    if FileOf(key) != [] { TmpBelow(Rooted(root), Segments(root), FileOf(key)); }
  }

  lemma TmpBelow(rooted: bool, above: seq<string>, file: Path)
    requires file != []
    ensures Render(rooted, above + file) + TMP == Render(rooted, above + Tmp(file))
  {
    assert AddLast(above + file, TMP) == above + Tmp(file);
    RenderAddLast(rooted, above + file, TMP);
  }

  /** A key that a request can name, without a cache or an entry called ".". */
  ghost predicate Requested(key: Key) {
    exists cacheID, entryKey ::
      Normal(cacheID, entryKey) && cacheID != "." && entryKey != "." && key == StorageKey(cacheID, entryKey)
  }

  lemma RequestedFile(key: Key)
    requires Requested(key)
    ensures FileOf(key) == Split(key) && FileOf(key) != []
  {
    var cacheID, entryKey :|
      Normal(cacheID, entryKey) && cacheID != "." && entryKey != "." && key == StorageKey(cacheID, entryKey);
    NamesOfKey(cacheID, entryKey);
    NormalSegments(cacheID, entryKey);
  }

  /** No key is another one followed by ".tmp", by "/" and more, or by ".tmp/" and more. */
  ghost predicate SeparateKeys(keys: set<Key>) {
    forall j, k :: j in keys && k in keys && j != k ==> !StringsCollide(j, k)
  }

  predicate StringsCollide(j: Key, k: Key) { k == j + TMP || j + "/" <= k || j + TMP + "/" <= k }

  lemma PrefixIsBelow(a: string, b: string, rest: string)
    requires b == a + "/" + rest
    ensures Split(a) < Split(b)
  {
    SplitConcat(a, rest);
  }

  lemma BelowIsPrefix(a: string, b: string, rest: seq<string>)
    requires rest != [] && Split(b) == Split(a) + rest
    ensures b == a + "/" + Join(rest)
  {
    JoinSplit(a);
    JoinSplit(b);
    JoinAppend(Split(a), rest);
  }

  /** One path lies below another exactly when it begins with the other and a slash. */
  lemma BelowExactly(a: string, b: string)
    ensures Split(a) < Split(b) <==> a + "/" <= b
  {
    var slashed := a + "/";
    if slashed <= b {
      assert b == slashed + b[|slashed|..];
      PrefixIsBelow(a, b, b[|slashed|..]);
    }
    if Split(a) < Split(b) {
      var rest := Split(b)[|Split(a)|..];
      BelowIsPrefix(a, b, rest);
      assert slashed <= slashed + Join(rest);
    }
  }

  lemma CollidesExactly(j: Key, k: Key)
    requires Requested(j) && Requested(k) && j != k
    ensures SF.Collides(FileOf(j), FileOf(k)) <==> StringsCollide(j, k)
  {
    RequestedFile(j);
    RequestedFile(k);
    SplitAddLast(j, TMP);
    assert Tmp(Split(j)) == Split(j + TMP);
    JoinSplit(j);
    JoinSplit(k);
    JoinSplit(j + TMP);
    BelowExactly(j, k);
    BelowExactly(j + TMP, k);
  }

  /**
    For keys that requests name, other than through ".": every run of the store is atomic exactly when no key
    is another one followed by ".tmp", "/..." or ".tmp/...", and no writer bypasses the flight table; and every
    run in which no two Puts of one key overlap exactly when the first of these holds.
   */
  lemma ServedAtomicallyExactly(keys: set<Key>, backfill: bool, shard: Key -> nat)
    requires forall k :: k in keys ==> Requested(k)
    ensures SF.Atomic(SF.Config(keys, FileOf, backfill, shard)) <==>
      SeparateKeys(keys) && (!backfill || keys == {})
    ensures SF.AtomicWhenLone(SF.Config(keys, FileOf, backfill, shard)) <==> SeparateKeys(keys)
  {
    var cfg := SF.Config(keys, FileOf, backfill, shard);
    AtomicExactly(cfg);
    AtomicWhenLoneExactly(cfg);
    SeparateExactly(cfg);
  }

  lemma SeparateExactly(cfg: SF.Config)
    requires cfg.path == FileOf && forall k :: k in cfg.keys ==> Requested(k)
    ensures SF.Separate(cfg) <==> SeparateKeys(cfg.keys)
  {
    forall k | k in cfg.keys ensures cfg.path(k) != [] { RequestedFile(k); }
    forall j, k | j in cfg.keys && k in cfg.keys && j != k
      ensures SF.Collides(cfg.path(j), cfg.path(k)) <==> StringsCollide(j, k)
    {
      CollidesExactly(j, k);
    }
  }

  /** The store does not serve a key and one nested in it atomically, though both can be requested. */
  lemma NestedKeysCollide(keys: set<Key>, backfill: bool, shard: Key -> nat)
    requires {"c/a", "c/a/b"} <= keys
    ensures Parse("/cache/c/a") == Ok("c", "a") && Parse("/cache/c/a/b") == Ok("c", "a/b")
    ensures !SF.AtomicWhenLone(SF.Config(keys, FileOf, backfill, shard))
  {
    NestedParse();
    var cfg := SF.Config(keys, FileOf, backfill, shard);
    assert "c/a" in cfg.keys && "c/a/b" in cfg.keys;
    NestedFiles();
    AtomicWhenLoneExactly(cfg);
    assert SF.Collides(cfg.path("c/a"), cfg.path("c/a/b"));
  }

  lemma NestedFiles()
    ensures SF.Collides(FileOf("c/a"), FileOf("c/a/b"))
  {
    NestedParse();
    assert StorageKey("c", "a") == "c/a" && StorageKey("c", "a/b") == "c/a/b";
    assert StringsCollide("c/a", "c/a/b") by { assert "c/a" + "/" <= "c/a/b"; }
    CollidesExactly("c/a", "c/a/b");
  }

  /** Nor two keys that share a file, as the keys of a cache called "." do with others. */
  lemma SharedFileCollides(
      root: string, c1: string, e1: string, c2: string, e2: string, keys: set<Key>, backfill: bool, shard: Key -> nat)
    requires Normal(c1, e1) && Normal(c2, e2) && StorageKey(c1, e1) != StorageKey(c2, e2)
    requires LocalPath(root, StorageKey(c1, e1)) == LocalPath(root, StorageKey(c2, e2))
    requires {StorageKey(c1, e1), StorageKey(c2, e2)} <= keys
    ensures !SF.AtomicWhenLone(SF.Config(keys, FileOf, backfill, shard))
  {
    var cfg := SF.Config(keys, FileOf, backfill, shard);
    var j, k := StorageKey(c1, e1), StorageKey(c2, e2);
    SharedFile(root, c1, e1, c2, e2);
    AtomicWhenLoneExactly(cfg);
    assert j in cfg.keys && k in cfg.keys && cfg.path(j) == cfg.path(k);
  }

  lemma SharedFile(root: string, c1: string, e1: string, c2: string, e2: string)
    requires Normal(c1, e1) && Normal(c2, e2)
    requires LocalPath(root, StorageKey(c1, e1)) == LocalPath(root, StorageKey(c2, e2))
    ensures FileOf(StorageKey(c1, e1)) == FileOf(StorageKey(c2, e2))
  {
    NamesOfKey(c1, e1);
    NamesOfKey(c2, e2);
    LocalSegments(root, c1, e1);
    LocalSegments(root, c2, e2);
    var a, b := Segments(root) + FileNames(c1, e1), Segments(root) + FileNames(c2, e2);
    RenderInjective(Rooted(root), a, b);
    assert a[|Segments(root)|..] == b[|Segments(root)|..];
  }

  lemma NestedParse()
    ensures Normal("c", "a") && Normal("c", "a/b")
    ensures Parse("/cache/c/a") == Ok("c", "a") && Parse("/cache/c/a/b") == Ok("c", "a/b")
  {
    NestedNormal();
    NormalParses("c", "a");
    NormalParses("c", "a/b");
    assert PREFIX + StorageKey("c", "a") == "/cache/c/a";
    assert PREFIX + StorageKey("c", "a/b") == "/cache/c/a/b";
  }

  lemma NestedNormal()
    ensures Normal("c", "a") && Normal("c", "a/b")
  {
    SplitOne("a");
    SplitOne("b");
    SplitConcat("a", "b");
    assert Split("a/b") == ["a", "b"] by { assert "a" + "/" + "b" == "a/b"; }
  }
}
