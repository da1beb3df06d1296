/**
  The file-system calls used by the local backend. Files and directories are named by paths below the
  cache root; a file's path leads to an inode and the inode carries the content, so a handle opened on
  an inode keeps it after the path is renamed over or removed.
 */
module FileSystem {
  import opened Base

  /** The names of a path below the cache root, which itself is []. */
  type Path = seq<string>

  /** The path of the file in which the content of p is written first: the suffix goes on the last name. */
  function Tmp(p: Path): (q: Path)
    ensures |q| >= |p| && (p != [] ==> |q| == |p| && q != p)
  {
    if p == [] then [TMP]
    else
      var q := p[|p| - 1 := p[|p| - 1] + TMP];
      assert |q[|p| - 1]| > |p[|p| - 1]|;
      q
  }

  lemma TmpInjective(p: Path, q: Path)
    requires p != [] && q != [] && Tmp(p) == Tmp(q)
    ensures p == q
  {
    var n := |p| - 1;
    assert Tmp(p)[n] == p[n] + TMP && Tmp(q)[n] == q[n] + TMP;
    assert p[n] == (p[n] + TMP)[..|p[n]|] && q[n] == (q[n] + TMP)[..|q[n]|];
    assert p == p[..n] + [p[n]] && q == q[..n] + [q[n]];
    assert p[..n] == Tmp(p)[..n] && q[..n] == Tmp(q)[..n];
  }

  /** The path p after what was at `from` is moved to `to`. */
  function Moved(p: Path, from: Path, to: Path): Path {
    if from <= p then to + p[|from|..] else p
  }

  datatype Fs = Fs(dir: map<Path, nat>, data: map<nat, Bytes>, next: nat, dirs: set<Path>) {

    ghost predicate Valid() {
      && (forall p :: p in dir ==> dir[p] in data && p !in dirs)
      && (forall i :: i in data ==> i < next)
      && (forall p, q :: p in dir && q in dir && dir[p] == dir[q] ==> p == q)
    }

    /** No name on the way to p is a file: a missing p is then reported as missing, not as an error. */
    predicate Unblocked(p: Path) { forall i | 0 <= i < |p| :: p[..i] !in dir }

    /** Every name on the way to p is a directory. */
    predicate Parented(p: Path) { forall i | 0 <= i < |p| :: p[..i] in dirs }

    /** os.MkdirAll succeeds on d. */
    predicate CanMakeDirs(d: Path) { Unblocked(d) && d !in dir }

    function MakeDirs(d: Path): Fs { this.(dirs := dirs + set i | 0 <= i <= |d| :: d[..i]) }

    /** os.Create succeeds on p. */
    predicate CanCreate(p: Path) { Parented(p) && p !in dirs }

    /** os.Create: an existing file keeps its inode and is truncated. */
    function Create(p: Path): Fs {
      if p in dir then this.(data := data[dir[p] := []])
      else Fs(dir[p := next], data[next := []], next + 1, dirs)
    }

    /** The inode that Create(p) returns a handle on. */
    function CreatedInode(p: Path): nat {
      if p in dir then dir[p] else next
    }

    /** A write at a handle's own offset; a gap left by a truncation reads as zeroes. */
    function WriteAt(ino: nat, off: nat, chunk: Bytes): Fs
      requires ino in data
    {
      this.(data := data[ino := Splice(data[ino], off, chunk)])
    }

    /** os.Rename succeeds: a file replaces a file or nothing, a directory replaces nothing. */
    predicate CanRename(from: Path, to: Path) {
      to !in dirs && (from in dir || (from in dirs && to !in dir))
    }

    /** A directory moves with everything below it. */
    function Rename(from: Path, to: Path): Fs
      requires CanRename(from, to)
    {
      if from in dir then this.(dir := (dir - {from})[to := dir[from]])
      else
        var images := set p | p in dir :: Moved(p, from, to);
        this.(dir := map q | q in images && Moved(q, to, from) in dir :: dir[Moved(q, to, from)],
              dirs := set p | p in dirs :: Moved(p, from, to))
    }

    /** os.Remove succeeds on p or finds nothing there: a directory goes only when it is empty. */
    predicate CanRemove(p: Path) {
      if p in dir then true
      else if p in dirs then forall q | q in dir.Keys + dirs :: !(p < q)
      else Unblocked(p)
    }

    function Remove(p: Path): Fs {
      this.(dir := dir - {p}, dirs := dirs - {p})
    }

    /** The content of the file at p. */
    function Content(p: Path): Option<Bytes> {
      if p in dir && dir[p] in data then Some(data[dir[p]]) else None
    }
  }

  function Splice(d: Bytes, off: nat, chunk: Bytes): Bytes {
    (if off <= |d| then d[..off] else d + seq(off - |d|, _ => 0))
    + chunk
    + (if off + |chunk| <= |d| then d[off + |chunk|..] else [])
  }

  /** Making directories where no file is in the way keeps every file. */
  lemma MakeDirsOnly(fs: Fs, d: Path)
    requires fs.Valid() && fs.CanMakeDirs(d)
    ensures fs.MakeDirs(d).Valid() && fs.MakeDirs(d).dir == fs.dir && fs.MakeDirs(d).data == fs.data
    ensures forall q :: q in fs.MakeDirs(d).dirs <==> q in fs.dirs || q <= d
  {
    forall q ensures q in fs.MakeDirs(d).dirs <==> q in fs.dirs || q <= d {
      if q <= d { assert q == d[..|q|]; }
    }
    assert d == d[..|d|];
    forall p | p <= d ensures p !in fs.dir {
      assert p == d[..|p|];
    }
  }

  /** Creating a path empties it and leaves every other path alone. */
  lemma CreateOnly(fs: Fs, p: Path)
    requires fs.Valid() && p !in fs.dirs
    ensures fs.Create(p).Valid() && p in fs.Create(p).dir && fs.Create(p).dir[p] == fs.CreatedInode(p)
    ensures forall q: Path :: fs.Create(p).Content(q) == if q == p then Some([]) else fs.Content(q)
  {
  }

  /** Writing through a handle on the file at p changes p alone. */
  lemma WriteOnly(fs: Fs, p: Path, off: nat, chunk: Bytes)
    requires fs.Valid() && p in fs.dir
    ensures fs.WriteAt(fs.dir[p], off, chunk).Valid()
    ensures forall q: Path ::
      fs.WriteAt(fs.dir[p], off, chunk).Content(q)
        == if q == p then Some(Splice(fs.Content(p).value, off, chunk)) else fs.Content(q)
  {
  }

  /** The rename of a file moves the content and the inode of one path to another. */
  lemma RenameOnly(fs: Fs, from: Path, to: Path)
    requires fs.Valid() && from in fs.dir && from != to && fs.CanRename(from, to)
    ensures fs.Rename(from, to).Valid() && fs.Rename(from, to).dirs == fs.dirs
    ensures forall q: Path ::
      fs.Rename(from, to).Content(q) == if q == to then fs.Content(from) else if q == from then None else fs.Content(q)
  {
  }
}
