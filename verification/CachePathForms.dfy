/**
  What the parser makes of every path, told by rewriting: an entry key is what remains of the rest of the path when
  doubled slashes, "." elements and a trailing slash have been taken out one by one, in any order.
 */
module CachePathForms {
  import opened Base
  import opened CachePath

  /** One doubled slash, "." element or trailing slash of r is taken out. */
  ghost predicate Drops(r: string, r': string) {
    || (exists x: string, y: string :: x != "" && r == x + "//" + y && r' == x + "/" + y)
    || (exists x: string, y: string :: x != "" && r == x + "/./" + y && r' == x + "/" + y)
    || (r' != "" && (r == r' + "/" || r == r' + "/."))
    || (r' != "" && r'[0] != '/' && r == "./" + r')
  }

  /** What follows the cache ID: not empty, without a leading slash, "..", or a backslash. */
  predicate Rest(r: string) { r != "" && r[0] != '/' && Plain(r) }

  predicate CacheName(c: string) { c != "" && '/' !in c && Plain(c) }

  ghost predicate Reduces(r: string, e: string)
    decreases |r|
  {
    r == e || exists r' :: Drops(r, r') && |r'| < |r| && Reduces(r', e)
  }

  // ---- two dots in a row ----

  ghost predicate HasDots(s: string) { exists a: string, b: string :: s == a + ".." + b }

  lemma PlainExactly(s: string)
    ensures Plain(s) <==> '\\' !in s && !HasDots(s)
  {
    if i :| 0 <= i < |s| - 1 && s[i] == '.' && s[i + 1] == '.' { assert s == s[..i] + ".." + s[i + 2..]; }
    if a: string, b: string :| s == a + ".." + b { assert s[|a|] == '.' && s[|a| + 1] == '.'; }
  }

  // ---- taking one out changes neither the names nor whether the path is accepted ----

  lemma DoubledSlash(x: string, y: string)
    ensures Names(Split(x + "//" + y)) == Names(Split(x + "/" + y)) && (Plain(x + "//" + y) <==> Plain(x + "/" + y))
  {
    Between(x, "", y);
    assert x + "/" + "" + "/" + y == x + "//" + y;
  }

  lemma DotElement(x: string, y: string)
    ensures Names(Split(x + "/./" + y)) == Names(Split(x + "/" + y)) && (Plain(x + "/./" + y) <==> Plain(x + "/" + y))
  {
    Between(x, ".", y);
    assert x + "/" + "." + "/" + y == x + "/./" + y;
  }

  lemma Between(x: string, seg: string, y: string)
    requires seg == "" || seg == "."
    ensures Names(Split(x + "/" + seg + "/" + y)) == Names(Split(x + "/" + y))
    ensures Plain(x + "/" + seg + "/" + y) <==> Plain(x + "/" + y)
  {
    AtEnd(x, seg);
    SplitConcat(x + "/" + seg, y);
    SplitConcat(x, y);
    NamesAppend(Split(x + "/" + seg), Split(y));
    NamesAppend(Split(x), Split(y));
    PlainParts(x + "/" + seg, y);
    PlainParts(x, y);
  }

  lemma AtEnd(x: string, seg: string)
    requires seg == "" || seg == "."
    ensures Names(Split(x + "/" + seg)) == Names(Split(x)) && (Plain(x + "/" + seg) <==> Plain(x))
  {
    SplitConcat(x, seg);
    SplitOne(seg);
    NamesAppend(Split(x), [seg]);
    assert Names([seg]) == Names([]);
    PlainParts(x, seg);
  }

  lemma AtFront(y: string)
    ensures Names(Split("./" + y)) == Names(Split(y)) && (Plain("./" + y) <==> Plain(y))
  {
    DotSlash(y);
    PlainParts(".", y);
    NamesBehindDot(Split(y));
    SplitConcat(".", y);
    SplitOne(".");
  }

  lemma DotSlash(y: string)
    ensures "./" + y == "." + "/" + y
  {
    assert "." + "/" == "./";
  }

  lemma NamesBehindDot(segs: seq<string>)
    ensures Names(["."] + segs) == Names(segs)
  {
    NamesAppend(["."], segs);
    assert Names(["."]) == Names([]);
  }

  lemma DropKeeps(r: string, r': string)
    requires Drops(r, r') && Rest(r)
    ensures Rest(r') && Names(Split(r')) == Names(Split(r))
  {
    if x: string, y: string :| x != "" && r == x + "//" + y && r' == x + "/" + y {
      DoubledSlash(x, y);
      assert r'[0] == x[0] == r[0];
    } else if x: string, y: string :| x != "" && r == x + "/./" + y && r' == x + "/" + y {
      DotElement(x, y);
      assert r'[0] == x[0] == r[0];
    } else if r' != "" && r == r' + "/" {
      AtEnd(r', "");
      assert r' + "/" + "" == r && r'[0] == r[0];
    } else if r' != "" && r == r' + "/." {
      AtEnd(r', ".");
      assert r' + "/" + "." == r && r'[0] == r[0];
    } else {
      AtFront(r');
    }
  }

  lemma {:induction false} ReducesKeeps(r: string, e: string)
    requires Reduces(r, e) && Rest(r)
    ensures Rest(e) && Names(Split(e)) == Names(Split(r))
    decreases |r|
  {
    if r != e {
      var r' :| Drops(r, r') && |r'| < |r| && Reduces(r', e);
      DropKeeps(r, r');
      ReducesKeeps(r', e);
    }
  }

  // ---- what is not in normal form can be reduced ----

  lemma {:induction false} ReducesToNormal(c: string, r: string) returns (e: string)
    requires CacheName(c) && Rest(r)
    ensures Reduces(r, e) && Normal(c, e)
    decreases |r|
  {
    if r == "." || forall seg :: seg in Split(r) ==> Name(seg) {
      e := r;
    } else {
      SplitSegments(r);
      var i :| 0 <= i < |Split(r)| && !Name(Split(r)[i]);
      var r' := DropAt(r, i);
      DropKeeps(r, r');
      e := ReducesToNormal(c, r');
    }
  }

  /** An empty or "." element can be dropped. */
  lemma DropAt(r: string, i: nat) returns (r': string)
    requires Rest(r) && r != "." && i < |Split(r)| && (Split(r)[i] == "" || Split(r)[i] == ".")
    ensures Drops(r, r') && |r'| < |r|
  {
    var segs := Split(r);
    JoinSplit(r);
    FirstElement(r);
    if i == 0 {
      r' := DropFirst(r);
    } else {
      assert segs == segs[..i] + segs[i..];
      JoinAppend(segs[..i], segs[i..]);
      var x := Join(segs[..i]);
      assert x[0] == segs[0][0];
      var end := Join(segs[i..]);
      if i == |segs| - 1 {
        assert segs[i..] == [segs[i]];
        r' := x;
      } else {
        var y := Join(segs[i + 1..]);
        assert segs[i..][1..] == segs[i + 1..] && end == segs[i] + "/" + y;
        r' := x + "/" + y;
        if segs[i] == "" { assert r == x + "//" + y; } else { assert r == x + "/./" + y; }
      }
    }
  }

  lemma FirstElement(r: string)
    requires Rest(r)
    ensures Split(r)[0] != "" && Split(r)[0][0] == r[0]
  {
  }

  /** A first element "." is followed by a slash, which is the last character, doubled, or gone with the element. */
  lemma DropFirst(r: string) returns (r': string)
    requires Rest(r) && r != "." && Split(r)[0] == "."
    ensures Drops(r, r') && |r'| < |r|
  {
    var segs := Split(r);
    JoinSplit(r);
    SplitOne(".");
    var y := Join(segs[1..]);
    assert |segs| == 1 ==> Join(segs) == ".";
    assert r == "./" + y;
    if y == "" {
      r' := ".";
      assert r == r' + "/";
    } else if y[0] == '/' {
      r' := "./" + y[1..];
      assert "." + "//" + y[1..] == r && "." + "/" + y[1..] == r';
    } else {
      r' := y;
    }
  }

  // ---- the paths of the cache root, which may have ".." in them ----

  lemma {:induction false} StackSame(rooted: bool, a: seq<string>, b: seq<string>, c: seq<string>)
    requires Stack(rooted, a) == Stack(rooted, b)
    ensures Stack(rooted, a + c) == Stack(rooted, b + c)
    decreases |c|
  {
    if c == [] {
      assert a + c == a && b + c == b;
    } else {
      var before, seg := c[..|c| - 1], c[|c| - 1];
      StackSame(rooted, a, b, before);
      StackOn(rooted, a + before, seg);
      StackOn(rooted, b + before, seg);
      assert a + c == a + before + [seg] && b + c == b + before + [seg];
    }
  }

  lemma StackTakesBack(rooted: bool, a: seq<string>, x: string)
    requires Name(x) && x != ".."
    ensures Stack(rooted, a + [x, ".."]) == Stack(rooted, a)
  {
    StackOn(rooted, a, x);
    StackOn(rooted, a + [x], "..");
    assert a + [x] + [".."] == a + [x, ".."];
    var before := Stack(rooted, a) + [x];
    assert before[..|before| - 1] == Stack(rooted, a);
  }

  /** An element ".." takes back the name before it, */
  lemma CleanTakesBack(a: string, x: string, b: string)
    requires a != "" && Name(x) && x != ".."
    ensures Clean(a + "/" + x + "/.." + "/" + b) == Clean(a + "/" + b)
  {
    var p := a + "/" + x + "/..";
    assert p == a + "/" + x + "/" + "..";
    SplitConcat(a + "/" + x, "..");
    SplitConcat(a, x);
    SplitOne(x);
    SplitOne("..");
    assert Split(p) == Split(a) + [x, ".."];
    SplitConcat(p, b);
    SplitConcat(a, b);
    StackTakesBack(Rooted(a), Split(a), x);
    StackSame(Rooted(a), Split(p), Split(a), Split(b));
    assert Rooted(p + "/" + b) == Rooted(a) && Rooted(a + "/" + b) == Rooted(a);
  }

  /** ... is dropped at the root, */
  lemma CleanAtRoot(b: string)
    ensures Clean("/../" + b) == Clean("/" + b)
  {
    assert "" + "/" + ".." == "/.." && "/.." + "/" + b == "/../" + b && "" + "/" + b == "/" + b;
    SplitConcat("", "..");
    SplitConcat("/..", b);
    SplitConcat("", b);
    SplitOne("..");
    assert Split("/..") == ["", ".."];
    assert ["", ".."][..1] == [""] && [""][..0] == [];
    StackSame(true, ["", ".."], [""], Split(b));
  }

  /** ... and stays at the beginning of any other path. */
  lemma {:induction false} CleanStays(n: nat)
    ensures Stack(false, seq(n, _ => "..")) == seq(n, _ => "..")
    decreases n
  {
    if n > 0 {
      var all := seq(n, _ => "..");
      assert all[..n - 1] == seq(n - 1, _ => "..") && all == all[..n - 1] + [".."];
      CleanStays(n - 1);
    }
  }

  // ---- every path ----

  lemma ParseRest(c: string, r: string)
    requires CacheName(c) && Rest(r)
    ensures Parse(PREFIX + StorageKey(c, r)) == Ok(c, Render(false, Names(Split(r))))
  {
    var trimmed := StorageKey(c, r);
    assert (PREFIX + trimmed)[|PREFIX|..] == trimmed;
    PlainParts(c, r);
    SplitParts(c, r);
    CleanRest(r);
  }

  lemma SplitParts(c: string, r: string)
    requires CacheName(c) && Rest(r)
    ensures
      var parts := Split(StorageKey(c, r));
      |parts| >= 2 && parts[0] == c && parts[1] != "" && parts[1..] == Split(r)
  {
    SplitConcat(c, r);
    SplitOne(c);
    FirstElement(r);
  }

  lemma CleanRest(r: string)
    requires Rest(r)
    ensures Clean(Join(Split(r))) == Render(false, Names(Split(r)))
  {
    FirstElement(r);
    SplitSegments(r);
    PlainSegments(r);
    CleanNames(Split(r));
  }

  /** The path is /cache/, a cache name, a slash, and a rest that is accepted. */
  ghost predicate Accepted(urlPath: string, c: string, r: string) {
    urlPath == PREFIX + StorageKey(c, r) && CacheName(c) && Rest(r)
  }

  lemma ParsedParts(urlPath: string) returns (r: string)
    requires Parse(urlPath).Ok?
    ensures Accepted(urlPath, Parse(urlPath).cacheID, r)
  {
    var trimmed := urlPath[|PREFIX|..];
    var parts := Split(trimmed);
    JoinSplit(trimmed);
    SplitSegments(trimmed);
    r := Join(parts[1..]);
    assert trimmed == parts[0] + "/" + r;
    PlainParts(parts[0], r);
    assert parts[0] in parts;
    assert parts[1..][0] == parts[1];
    assert r[0] == parts[1][0] && parts[1][0] in parts[1] && parts[1] in parts;
    assert urlPath == PREFIX + trimmed;
  }

  lemma NoDots(urlPath: string)
    ensures HasDots(urlPath) || '\\' in urlPath ==> !Parse(urlPath).Ok?
  {
    if Parse(urlPath).Ok? {
      var trimmed := urlPath[|PREFIX|..];
      PrefixSplits(urlPath);
      PlainParts("/cache", trimmed);
      assert Plain("/cache");
      PlainExactly(urlPath);
    }
  }

  lemma PrefixSplits(urlPath: string)
    requires PREFIX <= urlPath
    ensures urlPath == "/cache" + "/" + urlPath[|PREFIX|..]
  {
    assert urlPath == PREFIX + urlPath[|PREFIX|..];
  }

  /**
    For every path: it parses to (c, e) exactly when it is /cache/, the cache name c, a slash and an accepted rest
    that reduces to e, and e cannot be reduced further; and only what lacks the prefix is told so. No path with two
    dots in a row or a backslash parses.
   */
  lemma ParsesExactly(urlPath: string, c: string, e: string)
    ensures Parse(urlPath) == Ok(c, e) <==> Normal(c, e) && exists r :: Accepted(urlPath, c, r) && Reduces(r, e)
    ensures Parse(urlPath) == BadPrefix <==> !(PREFIX <= urlPath)
    ensures HasDots(urlPath) || '\\' in urlPath ==> !Parse(urlPath).Ok?
  {
    NoDots(urlPath);
    if Parse(urlPath) == Ok(c, e) {
      ParseIsNormal(urlPath);
      var r := ParsedParts(urlPath);
      var e' := ReducesToNormal(c, r);
      ReducedParse(c, r, e');
      assert Accepted(urlPath, c, r) && Reduces(r, e);
    } else if Normal(c, e) && exists r :: Accepted(urlPath, c, r) && Reduces(r, e) {
      var r :| Accepted(urlPath, c, r) && Reduces(r, e);
      ReducedParse(c, r, e);
      assert false;
    }
  }

  lemma ReducedParse(c: string, r: string, e: string)
    requires CacheName(c) && Rest(r) && Reduces(r, e) && Normal(c, e)
    ensures Parse(PREFIX + StorageKey(c, r)) == Ok(c, e)
  {
    ReducesKeeps(r, e);
    ParseRest(c, r);
    ParseRest(c, e);
    NormalParses(c, e);
  }

  /** Reductions of an accepted rest end in one key only, whatever their order. */
  lemma ReducesToOne(c: string, r: string, a: string, b: string)
    requires CacheName(c) && Rest(r) && Reduces(r, a) && Normal(c, a) && Reduces(r, b) && Normal(c, b)
    ensures a == b
  {
    ReducedParse(c, r, a);
    ReducedParse(c, r, b);
  }
}
