/**
  From a request path to a storage key, and from a storage key to a file below the cache root.
  `path.Clean` and `filepath.Join` are modelled by their documented behaviour on slash-separated paths.
 */
module CachePath {
  import opened Base

  // ---- slash-separated paths ----

  /** The elements of ch + s, given those of s. */
  function Push(ch: char, segs: seq<string>): (r: seq<string>)
    requires segs != []
    ensures r != []
  {
    if ch == '/' then [""] + segs else [[ch] + segs[0]] + segs[1..]
  }

  function Split(s: string): (r: seq<string>)
    ensures r != []
  {
    if s == "" then [""] else Push(s[0], Split(s[1..]))
  }

  function Join(segs: seq<string>): string {
    if segs == [] then "" else if |segs| == 1 then segs[0] else segs[0] + "/" + Join(segs[1..])
  }

  predicate Rooted(p: string) { p != "" && p[0] == '/' }

  /** What one more element makes of those before it: "" and "." are dropped, and ".." takes back the last. */
  function Onto(rooted: bool, before: seq<string>, seg: string): seq<string> {
    if seg == "" || seg == "." then before
    else if seg != ".." then before + [seg]
    else if before != [] && before[|before| - 1] != ".." then before[..|before| - 1]
    else if rooted then before
    else before + [seg]
  }

  function Stack(rooted: bool, segs: seq<string>): seq<string> {
    if segs == [] then [] else Onto(rooted, Stack(rooted, segs[..|segs| - 1]), segs[|segs| - 1])
  }

  function Segments(p: string): seq<string> { Stack(Rooted(p), Split(p)) }

  function Render(rooted: bool, segs: seq<string>): string {
    if rooted then "/" + Join(segs) else if segs == [] then "." else Join(segs)
  }

  function Clean(p: string): string { Render(Rooted(p), Segments(p)) }

  function JoinPath(dir: string, p: string): string {
    if dir == "" && p == "" then ""
    else if dir == "" then Clean(p)
    else if p == "" then Clean(dir)
    else Clean(dir + "/" + p)
  }

  // ---- keys ----

  const PREFIX := "/cache/"

  datatype Parsed = Ok(cacheID: string, entryKey: string) | BadPrefix | BadPath

  /** Free of ".." and of backslashes. */
  predicate Plain(s: string) {
    '\\' !in s && forall i :: 0 <= i < |s| - 1 ==> !(s[i] == '.' && s[i + 1] == '.')
  }

  function Parse(urlPath: string): Parsed {
    if !(PREFIX <= urlPath) then BadPrefix
    else
      var trimmed := urlPath[|PREFIX|..];
      if trimmed == "" || !Plain(trimmed) then BadPath
      else
        var parts := Split(trimmed);
        if |parts| < 2 || parts[0] == "" || parts[1] == "" then BadPath
        else Ok(parts[0], Clean(Join(parts[1..])))
  }

  function StorageKey(cacheID: string, entryKey: string): Key { cacheID + "/" + entryKey }

  /** The file of a key: `filepath.FromSlash` changes nothing where the separator is a slash. */
  function LocalPath(root: string, key: Key): string { JoinPath(root, key) }

  // ---- splitting and joining ----

  lemma PushAppend(ch: char, a: seq<string>, b: seq<string>)
    requires a != []
    ensures Push(ch, a + b) == Push(ch, a) + b
  {
    assert ch != '/' ==> (a + b)[1..] == a[1..] + b;
  }

  lemma {:induction false} SplitConcat(a: string, b: string)
    ensures Split(a + "/" + b) == Split(a) + Split(b)
  {
    var s := a + "/" + b;
    if a == "" {
      assert s[1..] == b;
    } else {
      SplitConcat(a[1..], b);
      assert s[1..] == a[1..] + "/" + b;
      PushAppend(a[0], Split(a[1..]), Split(b));
    }
  }

  lemma {:induction false} SplitOne(a: string)
    requires '/' !in a
    ensures Split(a) == [a]
  {
    if a != "" {
      SplitOne(a[1..]);
      assert [a[0]] + a[1..] == a;
    }
  }

  lemma {:induction false} SplitSegments(s: string)
    ensures forall seg :: seg in Split(s) ==> '/' !in seg
  {
    if s != "" { SplitSegments(s[1..]); }
  }

  lemma JoinPush(ch: char, segs: seq<string>)
    requires segs != []
    ensures Join(Push(ch, segs)) == [ch] + Join(segs)
  {
    var r := Push(ch, segs);
    if ch == '/' {
      assert r[1..] == segs;
      assert "" + "/" + Join(segs) == [ch] + Join(segs);
    } else {
      assert r[1..] == segs[1..];
      if |segs| > 1 { assert r[0] + "/" + Join(r[1..]) == [ch] + (segs[0] + "/" + Join(segs[1..])); }
    }
  }

  lemma {:induction false} JoinSplit(s: string)
    ensures Join(Split(s)) == s
  {
    if s != "" {
      JoinSplit(s[1..]);
      JoinPush(s[0], Split(s[1..]));
    }
  }

  lemma {:induction false} SplitJoin(segs: seq<string>)
    requires segs != [] && forall seg :: seg in segs ==> '/' !in seg
    ensures Split(Join(segs)) == segs
  {
    SplitOne(segs[0]);
    if |segs| > 1 {
      SplitJoin(segs[1..]);
      SplitConcat(segs[0], Join(segs[1..]));
    }
  }

  lemma {:induction false} JoinAppend(a: seq<string>, b: seq<string>)
    requires a != [] && b != []
    ensures Join(a + b) == Join(a) + "/" + Join(b)
  {
    if |a| == 1 {
      assert (a + b)[1..] == b;
    } else {
      JoinAppend(a[1..], b);
      assert (a + b)[1..] == a[1..] + b;
    }
  }

  // ---- names: the elements of a path without ".." ----

  predicate Name(seg: string) { seg != "" && seg != "." && '/' !in seg }

  function Names(segs: seq<string>): seq<string> {
    if segs == [] then []
    else
      var seg := segs[|segs| - 1];
      Names(segs[..|segs| - 1]) + (if seg == "" || seg == "." then [] else [seg])
  }

  lemma {:induction false} NamesAppend(a: seq<string>, b: seq<string>)
    ensures Names(a + b) == Names(a) + Names(b)
    decreases |b|
  {
    if b == [] {
      assert a + b == a;
    } else {
      NamesAppend(a, b[..|b| - 1]);
      assert (a + b)[..|a + b| - 1] == a + b[..|b| - 1];
    }
  }

  lemma {:induction false} NamesAreNames(segs: seq<string>)
    requires forall seg :: seg in segs ==> '/' !in seg
    ensures forall seg :: seg in Names(segs) ==> Name(seg) && seg in segs
    decreases |segs|
  {
    if segs != [] { NamesAreNames(segs[..|segs| - 1]); }
  }

  lemma {:induction false} NamesKept(segs: seq<string>)
    requires forall seg :: seg in segs ==> Name(seg)
    ensures Names(segs) == segs
    decreases |segs|
  {
    if segs != [] {
      NamesKept(segs[..|segs| - 1]);
      assert segs[|segs| - 1] in segs;
      assert segs[..|segs| - 1] + [segs[|segs| - 1]] == segs;
    }
  }

  lemma StackOn(rooted: bool, a: seq<string>, seg: string)
    ensures Stack(rooted, a + [seg]) == Onto(rooted, Stack(rooted, a), seg)
  {
    assert (a + [seg])[..|a|] == a;
  }

  /** Below any stack, elements other than ".." only add their names. */
  lemma {:induction false} StackAppend(rooted: bool, a: seq<string>, b: seq<string>)
    requires ".." !in b
    ensures Stack(rooted, a + b) == Stack(rooted, a) + Names(b)
    decreases |b|
  {
    if b == [] {
      assert a + b == a;
    } else {
      var before, seg := b[..|b| - 1], b[|b| - 1];
      assert b == before + [seg] && a + b == a + before + [seg];
      StackAppend(rooted, a, before);
      StackOn(rooted, a + before, seg);
      assert Stack(rooted, a) + (Names(before) + [seg]) == Stack(rooted, a) + Names(before) + [seg];
    }
  }

  lemma {:induction false} StackOfNames(rooted: bool, segs: seq<string>)
    requires forall seg :: seg in segs ==> '/' !in seg
    ensures forall seg :: seg in Stack(rooted, segs) ==> Name(seg)
    decreases |segs|
  {
    if segs != [] { StackOfNames(rooted, segs[..|segs| - 1]); }
  }

  lemma RenderInjective(rooted: bool, a: seq<string>, b: seq<string>)
    requires forall seg :: seg in a ==> Name(seg)
    requires forall seg :: seg in b ==> Name(seg)
    requires Render(rooted, a) == Render(rooted, b)
    ensures a == b
  {
    assert Split(".") == ["."] by { SplitOne("."); }
    if rooted { assert ("/" + Join(a))[1..] == Join(a) && ("/" + Join(b))[1..] == Join(b); }
    if a != [] { SplitJoin(a); assert a[0] in a; }
    if b != [] { SplitJoin(b); assert b[0] in b; }
    assert Split("") == [""];
  }

  // ---- plain strings ----

  lemma PlainParts(a: string, b: string)
    ensures Plain(a + "/" + b) <==> Plain(a) && Plain(b)
  {
    var s := a + "/" + b;
    if Plain(s) {
      assert forall i :: 0 <= i < |a| ==> s[i] == a[i];
      assert forall i :: 0 <= i < |b| ==> s[|a| + 1 + i] == b[i];
    }
  }

  lemma {:induction false} PlainJoin(segs: seq<string>)
    ensures Plain(Join(segs)) <==> forall seg :: seg in segs ==> Plain(seg)
  {
    if |segs| > 1 {
      PlainJoin(segs[1..]);
      PlainParts(segs[0], Join(segs[1..]));
      assert segs == [segs[0]] + segs[1..];
    } else if |segs| == 1 {
      assert segs == [segs[0]];
    }
  }

  lemma PlainSegments(s: string)
    requires Plain(s)
    ensures forall seg :: seg in Split(s) ==> Plain(seg) && seg != ".."
  {
    JoinSplit(s);
    PlainJoin(Split(s));
    assert !Plain("..") by { assert ".."[0] == '.' && ".."[1] == '.'; }
  }

  // ---- normal form ----

  /** A cache ID and an entry key in normal form. */
  predicate Normal(cacheID: string, entryKey: string) {
    && cacheID != "" && '/' !in cacheID && Plain(cacheID) && Plain(entryKey)
    && (entryKey == "." || forall seg :: seg in Split(entryKey) ==> Name(seg))
  }

  lemma JoinNotRooted(rest: seq<string>)
    requires rest != [] && rest[0] != "" && '/' !in rest[0]
    ensures !Rooted(Join(rest))
  {
    assert Join(rest)[0] == rest[0][0];
  }

  lemma CleanNames(rest: seq<string>)
    requires rest != [] && rest[0] != "" && ".." !in rest && forall seg :: seg in rest ==> '/' !in seg
    ensures Clean(Join(rest)) == Render(false, Names(rest))
  {
    assert rest[0] in rest;
    SplitJoin(rest);
    JoinNotRooted(rest);
    StackAppend(false, [], rest);
    assert [] + rest == rest && [] + Names(rest) == Names(rest);
  }

  lemma NamesAreNormal(rest: seq<string>)
    requires forall seg :: seg in rest ==> '/' !in seg && Plain(seg)
    ensures
      var e := Render(false, Names(rest));
      Plain(e) && (e == "." || forall seg :: seg in Split(e) ==> Name(seg))
  {
    NamesAreNames(rest);
    var names := Names(rest);
    PlainJoin(names);
    if names != [] { SplitJoin(names); }
  }

  lemma ParseIsNormal(urlPath: string)
    requires Parse(urlPath).Ok?
    ensures Normal(Parse(urlPath).cacheID, Parse(urlPath).entryKey)
  {
    var trimmed := urlPath[|PREFIX|..];
    var parts := Split(trimmed);
    SplitSegments(trimmed);
    PlainSegments(trimmed);
    forall seg | seg in parts[1..] ensures seg in parts {
    }
    CleanNames(parts[1..]);
    NamesAreNormal(parts[1..]);
    assert parts[0] in parts;
  }

  lemma NormalSegments(cacheID: string, entryKey: string)
    requires Normal(cacheID, entryKey)
    ensures Split(StorageKey(cacheID, entryKey)) == [cacheID] + Split(entryKey)
    ensures ".." !in [cacheID] + Split(entryKey)
    ensures Split(entryKey)[0] != "" && entryKey != "" && !Rooted(entryKey)
    ensures Names(Split(entryKey)) == if entryKey == "." then [] else Split(entryKey)
  {
    SplitConcat(cacheID, entryKey);
    SplitOne(cacheID);
    PlainSegments(entryKey);
    PlainSegments(cacheID);
    SplitOne(".");
    assert Split(entryKey)[0] in Split(entryKey);
    if entryKey != "." { NamesKept(Split(entryKey)); } else { assert Names(["."]) == Names([]); }
  }

  lemma NormalParses(cacheID: string, entryKey: string)
    requires Normal(cacheID, entryKey)
    ensures Parse(PREFIX + StorageKey(cacheID, entryKey)) == Ok(cacheID, entryKey)
  {
    var trimmed := StorageKey(cacheID, entryKey);
    assert (PREFIX + trimmed)[|PREFIX|..] == trimmed;
    PlainParts(cacheID, entryKey);
    NormalSegments(cacheID, entryKey);
    assert Split(trimmed)[1..] == Split(entryKey);
    JoinSplit(entryKey);
    StackAppend(false, [], Split(entryKey));
    assert [] + Split(entryKey) == Split(entryKey);
  }

  /** Re-parsing the storage key of a parsed path gives back the same pair. */
  lemma ParseIsStable(urlPath: string)
    requires Parse(urlPath).Ok?
    ensures Parse(PREFIX + StorageKey(Parse(urlPath).cacheID, Parse(urlPath).entryKey)) == Parse(urlPath)
  {
    ParseIsNormal(urlPath);
    NormalParses(Parse(urlPath).cacheID, Parse(urlPath).entryKey);
  }

  /** The pairs requests can name are exactly those in normal form. */
  lemma NameableExactly(cacheID: string, entryKey: string)
    ensures (exists urlPath :: Parse(urlPath) == Ok(cacheID, entryKey)) <==> Normal(cacheID, entryKey)
  {
    if Normal(cacheID, entryKey) {
      NormalParses(cacheID, entryKey);
    } else if exists urlPath :: Parse(urlPath) == Ok(cacheID, entryKey) {
      var urlPath :| Parse(urlPath) == Ok(cacheID, entryKey);
      ParseIsNormal(urlPath);
      assert false;
    }
  }

  /** Two requests share a storage key only when they name the same cache and the same entry. */
  lemma StorageKeyInjective(p: string, q: string)
    requires Parse(p).Ok? && Parse(q).Ok?
    requires StorageKey(Parse(p).cacheID, Parse(p).entryKey) == StorageKey(Parse(q).cacheID, Parse(q).entryKey)
    ensures Parse(p) == Parse(q)
  {
    ParseIsStable(p);
    ParseIsStable(q);
  }

  // ---- files below the root ----

  /** The file names a key adds below the root. */
  function FileNames(cacheID: string, entryKey: string): seq<string> {
    (if cacheID == "." then [] else [cacheID]) + EntryNames(entryKey)
  }

  function EntryNames(entryKey: string): seq<string> { if entryKey == "." then [] else Split(entryKey) }

  lemma NamesOfKey(cacheID: string, entryKey: string)
    requires Normal(cacheID, entryKey)
    ensures
      var key := StorageKey(cacheID, entryKey);
      && Names(Split(key)) == FileNames(cacheID, entryKey) && ".." !in Split(key) && !Rooted(key)
      && forall seg :: seg in FileNames(cacheID, entryKey) ==> Name(seg)
  {
    NormalSegments(cacheID, entryKey);
    NamesAppend([cacheID], Split(entryKey));
    assert Names([cacheID]) == if cacheID == "." then [] else [cacheID] by { assert [cacheID][..0] == []; }
    SplitSegments(StorageKey(cacheID, entryKey));
    NamesAreNames(Split(StorageKey(cacheID, entryKey)));
  }

  lemma JoinPathAppends(dir: string, p: string)
    requires p != "" && ".." !in Split(p) && !Rooted(p)
    ensures JoinPath(dir, p) == Render(Rooted(dir), Segments(dir) + Names(Split(p)))
  {
    if dir == "" {
      StackAppend(false, [], Split(p));
      assert [] + Split(p) == Split(p);
      assert Segments("") == [];
      assert [] + Names(Split(p)) == Names(Split(p));
    } else {
      SplitConcat(dir, p);
      StackAppend(Rooted(dir), Split(dir), Split(p));
      assert (dir + "/" + p)[0] == dir[0];
    }
  }

  lemma LocalSegments(root: string, cacheID: string, entryKey: string)
    requires Normal(cacheID, entryKey)
    ensures LocalPath(root, StorageKey(cacheID, entryKey))
         == Render(Rooted(root), Segments(root) + FileNames(cacheID, entryKey))
    ensures forall seg :: seg in Segments(root) + FileNames(cacheID, entryKey) ==> Name(seg)
  {
    NamesOfKey(cacheID, entryKey);
    JoinPathAppends(root, StorageKey(cacheID, entryKey));
    SplitSegments(root);
    StackOfNames(Rooted(root), Split(root));
  }

  /** A path that lies in directory `dir`, given in clean form. */
  function Inside(dir: string, below: string): string {
    if dir == "." then below else if dir == "/" then "/" + below else dir + "/" + below
  }

  lemma RenderBelow(rooted: bool, above: seq<string>, names: seq<string>)
    requires names != [] && forall seg :: seg in above ==> Name(seg)
    ensures Render(rooted, above + names) == Inside(Render(rooted, above), Join(names))
  {
    if above == [] {
      assert above + names == names;
      assert "/" + Join(above) == "/";
    } else {
      JoinAppend(above, names);
      RootIsProper(rooted, above);
      assert "/" + (Join(above) + "/" + Join(names)) == "/" + Join(above) + "/" + Join(names);
    }
  }

  /** Every local path is the root or lies below it, and it is the root only for the pair (".", "."). */
  lemma LocalPathStaysBelowRoot(root: string, urlPath: string)
    requires Parse(urlPath).Ok?
    ensures
      var (c, e) := (Parse(urlPath).cacheID, Parse(urlPath).entryKey);
      var names := FileNames(c, e);
      && (names == [] <==> c == "." && e == ".")
      && LocalPath(root, StorageKey(c, e)) == (if names == [] then Clean(root) else Inside(Clean(root), Join(names)))
      && forall seg :: seg in names ==> Name(seg) && seg != ".."
  {
    ParseIsNormal(urlPath);
    var c, e := Parse(urlPath).cacheID, Parse(urlPath).entryKey;
    var names := FileNames(c, e);
    LocalSegments(root, c, e);
    NormalSegments(c, e);
    NamesOfKey(c, e);
    var above := Segments(root);
    if names == [] {
      assert above + names == above;
    } else {
      RenderBelow(Rooted(root), above, names);
    }
  }

  lemma RootIsProper(rooted: bool, above: seq<string>)
    requires above != [] && forall seg :: seg in above ==> Name(seg)
    ensures Render(rooted, above) != "." && Render(rooted, above) != "/"
  {
    RenderDiffers(false, above);
    RenderDiffers(true, above);
    SplitJoin(above);
    assert above[0] in above;
    assert Split("/") == ["", ""] by { assert "/"[1..] == ""; }
  }

  lemma RenderDiffers(rooted: bool, above: seq<string>)
    requires above != [] && forall seg :: seg in above ==> Name(seg)
    ensures Render(rooted, above) != Render(rooted, [])
  {
    if Render(rooted, above) == Render(rooted, []) { RenderInjective(rooted, above, []); }
  }

  /** What cache ID "." must be asked for to reach the entry of another cache. */
  function Alias(cacheID: string, entryKey: string): string {
    if entryKey == "." then cacheID else StorageKey(cacheID, entryKey)
  }

  lemma SameNamesExactly(c1: string, e1: string, c2: string, e2: string)
    requires Normal(c1, e1) && Normal(c2, e2)
    ensures FileNames(c1, e1) == FileNames(c2, e2) <==>
      (c1 == c2 && e1 == e2)
      || (c1 == "." && c2 != "." && e1 == Alias(c2, e2))
      || (c2 == "." && c1 != "." && e2 == Alias(c1, e1))
  {
    if c1 == "." && c2 != "." {
      AliasNames(e1, c2, e2);
    } else if c1 != "." && c2 == "." {
      AliasNames(e2, c1, e1);
    } else {
      SameEntry(e1, e2);
      if c1 == "." {
        assert FileNames(c1, e1) == EntryNames(e1) && FileNames(c2, e2) == EntryNames(e2);
      } else {
        assert FileNames(c1, e1)[0] == c1 && FileNames(c2, e2)[0] == c2;
        assert FileNames(c1, e1)[1..] == EntryNames(e1) && FileNames(c2, e2)[1..] == EntryNames(e2);
      }
    }
  }

  lemma SameEntry(e1: string, e2: string)
    ensures EntryNames(e1) == EntryNames(e2) <==> e1 == e2
  {
    JoinSplit(e1);
    JoinSplit(e2);
  }

  lemma AliasNames(e1: string, c2: string, e2: string)
    requires Normal(".", e1) && Normal(c2, e2) && c2 != "."
    ensures FileNames(".", e1) == FileNames(c2, e2) <==> e1 == Alias(c2, e2)
  {
    var a := Alias(c2, e2);
    SplitOne(c2);
    NormalSegments(c2, e2);
    assert EntryNames(a) == FileNames(c2, e2) by {
      if e2 != "." { assert |a| > 1; }
    }
    SameEntry(e1, a);
    assert FileNames(".", e1) == EntryNames(e1);
  }

  /**
    Two keys share a file exactly when they are the same key or one reaches the other's file through the
    cache ID ".": so different keys have different files as long as no cache is called ".".
   */
  lemma SameFileExactly(root: string, p: string, q: string)
    requires Parse(p).Ok? && Parse(q).Ok?
    ensures
      var (c1, e1, c2, e2) := (Parse(p).cacheID, Parse(p).entryKey, Parse(q).cacheID, Parse(q).entryKey);
      LocalPath(root, StorageKey(c1, e1)) == LocalPath(root, StorageKey(c2, e2)) <==>
        (c1 == c2 && e1 == e2)
        || (c1 == "." && c2 != "." && e1 == Alias(c2, e2))
        || (c2 == "." && c1 != "." && e2 == Alias(c1, e1))
  {
    ParseIsNormal(p);
    ParseIsNormal(q);
    var (c1, e1, c2, e2) := (Parse(p).cacheID, Parse(p).entryKey, Parse(q).cacheID, Parse(q).entryKey);
    LocalSegments(root, c1, e1);
    LocalSegments(root, c2, e2);
    SameNamesExactly(c1, e1, c2, e2);
    var (a, b) := (Segments(root) + FileNames(c1, e1), Segments(root) + FileNames(c2, e2));
    if Render(Rooted(root), a) == Render(Rooted(root), b) {
      RenderInjective(Rooted(root), a, b);
      assert a[|Segments(root)|..] == b[|Segments(root)|..];
    }
  }

  lemma NormalExamples()
    ensures Normal(".", "x/y") && Normal("x", "y")
  {
    SplitOne("x");
    SplitOne("y");
    SplitConcat("x", "y");
    assert Split("x/y") == ["x", "y"] by { assert "x" + "/" + "y" == "x/y"; }
  }

  /** The paths "/cache/./x/y" and "/cache/x/y" have different storage keys and one file. */
  lemma DotCacheAliases(root: string)
    ensures Parse("/cache/./x/y") == Ok(".", "x/y") && Parse("/cache/x/y") == Ok("x", "y")
    ensures StorageKey(".", "x/y") != StorageKey("x", "y")
    ensures LocalPath(root, StorageKey(".", "x/y")) == LocalPath(root, StorageKey("x", "y"))
  {
    ExamplePaths();
    NormalExamples();
    NormalParses(".", "x/y");
    NormalParses("x", "y");
    SameFileExactly(root, "/cache/./x/y", "/cache/x/y");
  }

  lemma ExamplePaths()
    ensures PREFIX + StorageKey(".", "x/y") == "/cache/./x/y" && PREFIX + StorageKey("x", "y") == "/cache/x/y"
    ensures Alias("x", "y") == "x/y" && StorageKey(".", "x/y") != StorageKey("x", "y")
  {
    assert "x" + "/" + "y" == "x/y" && "." + "/" + "x/y" == "./x/y";
    assert "/cache/" + "./x/y" == "/cache/./x/y" && "/cache/" + "x/y" == "/cache/x/y";
    assert "./x/y"[0] != "x/y"[0];
  }

  // ---- keys that are another key's temporary file ----

  predicate EndsInDot(s: string) { s != "" && s[|s| - 1] == '.' }

  /** A string added to the last element. */
  function AddLast(segs: seq<string>, t: string): seq<string>
    requires segs != []
  {
    segs[|segs| - 1 := segs[|segs| - 1] + t]
  }

  lemma TmpOfNormal(cacheID: string, entryKey: string)
    requires Normal(cacheID, entryKey)
    ensures Normal(cacheID, entryKey + TMP) <==> !EndsInDot(entryKey)
  {
    var e := entryKey + TMP;
    if EndsInDot(entryKey) {
      NotPlainTmp(entryKey);
    } else {
      PlainTmp(entryKey);
      SplitAddLast(entryKey, TMP);
      forall seg | seg in Split(e) ensures Name(seg) {
        var segs := Split(entryKey);
        if seg !in segs { assert seg == segs[|segs| - 1] + TMP && segs[|segs| - 1] in segs; }
      }
    }
  }

  lemma NotPlainTmp(e: string)
    requires EndsInDot(e)
    ensures !Plain(e + TMP)
  {
    assert (e + TMP)[|e| - 1] == '.' && (e + TMP)[|e|] == '.';
  }

  lemma PlainTmp(e: string)
    requires Plain(e) && !EndsInDot(e)
    ensures Plain(e + TMP)
  {
    PlainAppend(e, TMP);
  }

  lemma PlainAppend(a: string, b: string)
    requires Plain(a) && Plain(b) && !EndsInDot(a)
    ensures Plain(a + b)
  {
    var s := a + b;
    forall i | 0 <= i < |s| - 1 ensures !(s[i] == '.' && s[i + 1] == '.') {
      if i + 1 < |a| { assert s[i] == a[i] && s[i + 1] == a[i + 1]; }
      else if i >= |a| { assert s[i] == b[i - |a|] && s[i + 1] == b[i + 1 - |a|]; }
    }
  }

  lemma PushAddLast(ch: char, segs: seq<string>, t: string)
    requires segs != []
    ensures Push(ch, AddLast(segs, t)) == AddLast(Push(ch, segs), t)
  {
    if ch != '/' && |segs| == 1 { assert [ch] + (segs[0] + t) == [ch] + segs[0] + t; }
  }

  lemma {:induction false} SplitAddLast(e: string, t: string)
    requires '/' !in t
    ensures Split(e + t) == AddLast(Split(e), t)
  {
    if e == "" {
      SplitOne(t);
      assert e + t == t;
    } else {
      SplitAddLast(e[1..], t);
      assert (e + t)[1..] == e[1..] + t;
      PushAddLast(e[0], Split(e[1..]), t);
    }
  }

  /**
    A key and that key with ".tmp" added can both be asked for, so the key sets the stack serves are not free of
    temporary-file clashes; the one exception is an entry key ending in a dot.
   */
  lemma TmpKeyNameableExactly(urlPath: string)
    requires Parse(urlPath).Ok?
    ensures
      var key := StorageKey(Parse(urlPath).cacheID, Parse(urlPath).entryKey);
      (exists q :: Parse(q).Ok? && StorageKey(Parse(q).cacheID, Parse(q).entryKey) == key + TMP)
        <==> !EndsInDot(Parse(urlPath).entryKey)
  {
    ParseIsNormal(urlPath);
    var c, e := Parse(urlPath).cacheID, Parse(urlPath).entryKey;
    TmpOfNormal(c, e);
    assert StorageKey(c, e) + TMP == StorageKey(c, e + TMP);
    if !EndsInDot(e) {
      NormalParses(c, e + TMP);
    } else if exists q :: Parse(q).Ok? && StorageKey(Parse(q).cacheID, Parse(q).entryKey) == StorageKey(c, e) + TMP {
      var q :| Parse(q).Ok? && StorageKey(Parse(q).cacheID, Parse(q).entryKey) == StorageKey(c, e) + TMP;
      ParseIsNormal(q);
      PlainParts(Parse(q).cacheID, Parse(q).entryKey);
      PlainParts(c, e + TMP);
      NotPlainTmp(e);
      assert false;
    }
  }

  lemma {:induction false} JoinAddLast(segs: seq<string>, t: string)
    requires segs != []
    ensures Join(segs) + t == Join(AddLast(segs, t))
  {
    if |segs| > 1 {
      JoinAddLast(segs[1..], t);
      assert AddLast(segs, t)[1..] == AddLast(segs[1..], t);
      assert segs[0] + "/" + Join(segs[1..]) + t == segs[0] + "/" + (Join(segs[1..]) + t);
    }
  }

  lemma RenderAddLast(rooted: bool, segs: seq<string>, t: string)
    requires segs != []
    ensures Render(rooted, segs) + t == Render(rooted, AddLast(segs, t))
  {
    JoinAddLast(segs, t);
    assert "/" + Join(segs) + t == "/" + (Join(segs) + t);
  }

  lemma FileNamesAddLast(c: string, e: string, t: string)
    requires e != "." && e + t != "." && '/' !in t
    ensures FileNames(c, e) != [] && FileNames(c, e + t) == AddLast(FileNames(c, e), t)
  {
    SplitAddLast(e, t);
  }

  lemma LocalPathAddLast(root: string, c: string, e: string, t: string)
    requires Normal(c, e) && Normal(c, e + t) && e != "." && e + t != "." && '/' !in t
    ensures LocalPath(root, StorageKey(c, e + t)) == LocalPath(root, StorageKey(c, e)) + t
  {
    LocalSegments(root, c, e);
    LocalSegments(root, c, e + t);
    FileNamesAddLast(c, e, t);
    AddLastBelow(Segments(root), FileNames(c, e), t);
    RenderAddLast(Rooted(root), Segments(root) + FileNames(c, e), t);
  }

  lemma AddLastBelow(above: seq<string>, names: seq<string>, t: string)
    requires names != []
    ensures above + AddLast(names, t) == AddLast(above + names, t)
  {
  }

  /** The temporary file of a key is the file of the key with ".tmp" added, when that key can be asked for. */
  lemma TmpFileIsKeysFile(root: string, urlPath: string)
    requires Parse(urlPath).Ok? && !EndsInDot(Parse(urlPath).entryKey)
    ensures
      var key := StorageKey(Parse(urlPath).cacheID, Parse(urlPath).entryKey);
      LocalPath(root, key + TMP) == LocalPath(root, key) + TMP
  {
    ParseIsNormal(urlPath);
    var c, e := Parse(urlPath).cacheID, Parse(urlPath).entryKey;
    TmpOfNormal(c, e);
    assert |e + TMP| > 1;
    LocalPathAddLast(root, c, e, TMP);
    assert StorageKey(c, e) + TMP == StorageKey(c, e + TMP);
  }
}
