/**
 * The local file system as the two export commands use it: a set of existing
 * directories and a map from file paths to contents. Paths are sequences of
 * components; the empty path is the current directory ".", which always exists.
 */
module FileSystem {
  import opened Js

  type Path = seq<string>

  /** `path.dirname`: the path without its last component ("." for a single component). */
  function Dirname(p: Path): (d: Path)
    ensures p != [] ==> p == d + [p[|p| - 1]]
    ensures p == [] ==> d == []
  {
    if p == [] then [] else p[..|p| - 1]
  }

  /** What a written file holds: the body as handed to `fs.writeFile`, or `JSON.stringify(v, null, 2)`. */
  datatype Content = Raw(body: Value) | Pretty(value: Value)

  /** `fs.existsSync(d)` for a directory d. */
  predicate Exists(dirs: set<Path>, d: Path) {
    d == [] || d in dirs
  }

  /** Every directory's ancestors exist, as on any real file system. */
  ghost predicate Closed(dirs: set<Path>) {
    forall d :: d in dirs ==> Ancestors(d) <= dirs
  }

  /** The directories strictly between "." and p. */
  function Ancestors(p: Path): set<Path> {
    set k | 1 <= k < |p| :: p[..k]
  }

  /** A snapshot of the file system together with the writes issued so far. */
  datatype FsState = FsState(dirs: set<Path>, files: map<Path, Content>, log: seq<(Path, Content)>)

  /**
   * The effect of `ensureDirectoryExistence(p)` followed by `fs.writeFile(p, c)`:
   * the missing ancestors are created, the write is issued, and it lands unless
   * p names a directory.
   */
  function WriteEffect(s: FsState, p: Path, c: Content): FsState {
    var dirs := s.dirs + Ancestors(p);
    FsState(dirs, if Exists(dirs, Dirname(p)) && p !in dirs then s.files[p := c] else s.files, s.log + [(p, c)])
  }

  /** A sequence of such writes, in order. */
  function ApplyWrites(s: FsState, ws: seq<(Path, Content)>): FsState
    decreases |ws|
  {
    if ws == [] then s
    else
      var last := ws[|ws| - 1];
      WriteEffect(ApplyWrites(s, ws[..|ws| - 1]), last.0, last.1)
  }

  lemma AncestorsStep(p: Path)
    requires |p| >= 2
    ensures Ancestors(p) == Ancestors(Dirname(p)) + {Dirname(p)}
  {
    var d := Dirname(p);
    forall x | x in Ancestors(p) ensures x in Ancestors(d) + {d} {
      var k :| 1 <= k < |p| && x == p[..k];
      if k < |d| { assert x == d[..k]; }
    }
    forall x | x in Ancestors(d) ensures x in Ancestors(p) {
      var k :| 1 <= k < |d| && x == d[..k];
      assert x == p[..k];
    }
    assert d == p[..|p| - 1];
  }

  /** When the parent of p exists, so do all the other ancestors of p. */
  lemma ExistingParentHasAncestors(dirs: set<Path>, p: Path)
    requires Closed(dirs) && Exists(dirs, Dirname(p))
    ensures Ancestors(p) <= dirs
  {
    if |p| >= 2 {
      AncestorsStep(p);
    } else {
      assert Ancestors(p) == {};
    }
  }

  /** The ancestors of an ancestor of p are ancestors of p. */
  lemma AncestorsOfPrefix(p: Path, k: nat)
    requires k <= |p|
    ensures Ancestors(p[..k]) <= Ancestors(p)
  {
    forall x | x in Ancestors(p[..k]) ensures x in Ancestors(p) {
      var j :| 1 <= j < k && x == p[..k][..j];
      assert x == p[..j];
    }
  }

  /** Creating the ancestors of a path keeps the directory tree closed. */
  lemma AncestorsKeepClosed(dirs: set<Path>, p: Path)
    requires Closed(dirs)
    ensures Closed(dirs + Ancestors(p))
  {
    forall x | x in Ancestors(p) ensures Ancestors(x) <= Ancestors(p) {
      var k :| 1 <= k < |p| && x == p[..k];
      AncestorsOfPrefix(p, k);
    }
  }

  /**
   * After a write to a file path p that is not a directory, every ancestor of p
   * exists, p holds c, the tree stays closed, and the only directories created
   * are ancestors of p.
   */
  lemma WriteLands(s: FsState, p: Path, c: Content)
    requires Closed(s.dirs) && p != [] && p !in s.dirs
    ensures Closed(WriteEffect(s, p, c).dirs)
    ensures forall k :: 0 <= k < |p| ==> Exists(WriteEffect(s, p, c).dirs, p[..k])
    ensures WriteEffect(s, p, c).files == s.files[p := c]
    ensures WriteEffect(s, p, c).dirs - s.dirs <= Ancestors(p)
  {
    AncestorsKeepClosed(s.dirs, p);
    var dirs := s.dirs + Ancestors(p);
    forall k | 0 <= k < |p| ensures Exists(dirs, p[..k]) {
      if k > 0 { assert p[..k] in Ancestors(p); }
    }
    assert Exists(dirs, Dirname(p)) by { assert Dirname(p) == p[..|p| - 1]; }
  }

  /** Ensuring the directories of a path twice is the same as once. */
  lemma WriteEffectIdempotent(s: FsState, p: Path, c: Content)
    ensures WriteEffect(WriteEffect(s, p, c), p, c).dirs == WriteEffect(s, p, c).dirs
    ensures WriteEffect(WriteEffect(s, p, c), p, c).files == WriteEffect(s, p, c).files
  {
  }

  /** Every write in the sequence is issued, in order, and the log records them. */
  lemma {:induction false} ApplyWritesLog(s: FsState, ws: seq<(Path, Content)>)
    ensures ApplyWrites(s, ws).log == s.log + ws
    decreases |ws|
  {
    if ws != [] {
      ApplyWritesLog(s, ws[..|ws| - 1]);
      assert ws[..|ws| - 1] + [ws[|ws| - 1]] == ws;
    }
  }

  /** Issuing two batches of writes one after the other is issuing their concatenation. */
  lemma {:induction false} ApplyWritesAppend(s: FsState, a: seq<(Path, Content)>, b: seq<(Path, Content)>)
    ensures ApplyWrites(s, a + b) == ApplyWrites(ApplyWrites(s, a), b)
    decreases |b|
  {
    if b == [] {
      assert a + b == a;
    } else {
      assert (a + b)[..|a + b| - 1] == a + b[..|b| - 1];
      ApplyWritesAppend(s, a, b[..|b| - 1]);
    }
  }

  /** The real file system; the ghost `log` records every write issued. */
  class Disk {
    var dirs: set<Path>
    var files: map<Path, Content>
    ghost var log: seq<(Path, Content)>

    ghost predicate Valid()
      reads this
    {
      Closed(dirs)
    }

    ghost function State(): FsState
      reads this
    {
      FsState(dirs, files, log)
    }

    constructor (dirs0: set<Path>, files0: map<Path, Content>)
      requires Closed(dirs0)
      ensures Valid()
      ensures State() == FsState(dirs0, files0, [])
    {
      dirs, files, log := dirs0, files0, [];
    }

    /** `fs.existsSync(d)` */
    method ExistsSync(d: Path) returns (b: bool)
      ensures b == Exists(dirs, d)
    {
      b := d == [] || d in dirs;
    }

    /** `fs.mkdirSync(d)`: fails (throws, in the source) if d exists or its parent does not. */
    method MkdirSync(d: Path) returns (ok: bool)
      requires Valid()
      modifies this
      ensures Valid()
      ensures ok == (!Exists(old(dirs), d) && Exists(old(dirs), Dirname(d)))
      ensures dirs == if ok then old(dirs) + {d} else old(dirs)
      ensures files == old(files) && log == old(log)
    {
      ok := !(d == [] || d in dirs) && (Dirname(d) == [] || Dirname(d) in dirs);
      if ok {
        ExistingParentHasAncestors(dirs, d);
        dirs := dirs + {d};
      }
    }

    /**
     * `ensureDirectoryExistence(filePath)`: return if the parent exists,
     * otherwise ensure the parent's parent and create the parent. No `mkdirSync`
     * it issues ever fails, only the missing ancestors of p are created, and
     * nothing changes when the parent already exists.
     */
    method EnsureDirectoryExistence(p: Path)
      requires Valid()
      modifies this
      decreases |p|
      ensures Valid()
      ensures dirs == old(dirs) + Ancestors(p)
      ensures old(Exists(dirs, Dirname(p))) ==> dirs == old(dirs)
      ensures forall k :: 0 <= k < |p| ==> Exists(dirs, p[..k])
      ensures files == old(files) && log == old(log)
    {
      var d := Dirname(p);
      var present := ExistsSync(d);
      if present {
        ExistingParentHasAncestors(dirs, p);
      } else {
        EnsureDirectoryExistence(d);
        var created := MkdirSync(d);
        // the parent's parent now exists and the parent does not, so this never fails
        assert created;
        AncestorsStep(p);
      }
      forall k | 0 <= k < |p| ensures Exists(dirs, p[..k]) {
        if 0 < k < |p| - 1 { assert p[..k] in Ancestors(p); }
        if k == |p| - 1 { assert p[..k] == d; }
      }
    }

    /** `fs.writeFile(p, c)`: the write is issued; it fails (and is only logged) unless the parent exists and p is not a directory. */
    method WriteFile(p: Path, c: Content) returns (ok: bool)
      modifies this
      ensures ok == (Exists(dirs, Dirname(p)) && p !in dirs)
      ensures dirs == old(dirs) && log == old(log) + [(p, c)]
      ensures files == if ok then old(files)[p := c] else old(files)
    {
      ok := (Dirname(p) == [] || Dirname(p) in dirs) && p !in dirs;
      if ok {
        files := files[p := c];
      }
      log := log + [(p, c)];
    }
  }
}
