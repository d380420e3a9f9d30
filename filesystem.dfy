/**
 * The part of the operating system's file system that project creation touches:
 * `Path::exists`, `std::fs::create_dir`, `File::create` and `Write::write_all`.
 *
 * A `Disk` is the abstract state: the directories and the regular files (with their
 * bytes) below the working directory, which itself is the empty path "". `Faults`
 * is the environment: the paths for which the operating system refuses creation
 * (permission denied) and the files whose write fails (a full disk, say).
 */
module FileSystem {
  import opened Wrappers
  import opened Bytes

  type Path = string

  /** The kinds of `std::io::Error` these calls produce. Like `std::io::Error`, an error does not carry the path. */
  datatype IoError = NotFound | AlreadyExists | PermissionDenied | IsADirectory | WriteFailed

  datatype Disk = Disk(dirs: set<Path>, files: map<Path, seq<Byte>>)

  datatype Faults = Faults(denied: set<Path>, failingWrites: set<Path>)

  /** What an operation returns, together with the disk it leaves behind. */
  datatype Effect<+E> = Effect(outcome: Outcome<E>, disk: Disk)

  /** The path with its last component (everything after the last '/') removed; "" when there is no '/'. */
  function Parent(p: Path): (r: Path)
    ensures r <= p
    ensures p != "" ==> |r| < |p|
  {
    if p == "" then "" else if p[|p| - 1] == '/' then p[..|p| - 1] else Parent(p[..|p| - 1])
  }

  lemma {:induction false} ParentOfJoin(a: Path, b: Path)
    requires '/' !in b
    ensures Parent(a + "/" + b) == a
  {
    var p := a + "/" + b;
    if b == "" {
      assert p[..|p| - 1] == a;
    } else {
      var b' := b[..|b| - 1];
      assert p[|p| - 1] == b[|b| - 1];
      assert p[..|p| - 1] == a + "/" + b';
      ParentOfJoin(a, b');
    }
  }

  lemma {:induction false} ParentOfPlain(p: Path)
    requires '/' !in p
    ensures Parent(p) == ""
  {
    if p != "" {
      assert p[|p| - 1] in p;
      ParentOfPlain(p[..|p| - 1]);
    }
  }

  /** `Path::exists`: a directory or a file is at `p`. */
  predicate Exists(d: Disk, p: Path)
  {
    p in d.dirs || p in d.files
  }

  /** The directory that would hold `p` exists (the working directory "" always does). */
  predicate ParentIsDir(d: Disk, p: Path)
  {
    Parent(p) == "" || Parent(p) in d.dirs
  }

  /** Dropping the last component of a path below `dir/` gives `dir` itself or a path still below `dir/`. */
  lemma {:induction false} ParentBelow(dir: Path, p: Path)
    requires dir + "/" <= p
    ensures Parent(p) == dir || dir + "/" <= Parent(p)
    decreases |p|
  {
    var q := p[..|p| - 1];
    if p[|p| - 1] == '/' {
      if |q| > |dir| {
        assert (dir + "/") == q[..|dir| + 1];
      }
    } else {
      assert |p| > |dir| + 1;
      assert (dir + "/") == q[..|dir| + 1];
      ParentBelow(dir, q);
    }
  }

  /** A disk as a file system can be: no entry is both a directory and a file, none is the
      working directory itself, and every entry sits in a directory that exists. */
  ghost predicate WellFormed(d: Disk)
  {
    && "" !in d.dirs && "" !in d.files
    && d.dirs !! d.files.Keys
    && (forall p :: p in d.dirs ==> ParentIsDir(d, p))
    && (forall p :: p in d.files ==> ParentIsDir(d, p))
  }

  /** On a well-formed disk nothing lies below a directory that does not exist (the working directory "" always does). */
  lemma {:induction false} NothingBelowMissingDir(d: Disk, dir: Path, p: Path)
    requires WellFormed(d) && dir != "" && dir !in d.dirs && dir + "/" <= p
    ensures p !in d.dirs && p !in d.files
    decreases |p|
  {
    ParentBelow(dir, p);
    if dir + "/" <= Parent(p) {
      NothingBelowMissingDir(d, dir, Parent(p));
    }
  }

  /** Path `p` is the same (absent, a directory, or a file with the same bytes) on both disks. */
  predicate Agree(d: Disk, d': Disk, p: Path)
  {
    && (p in d.dirs <==> p in d'.dirs)
    && (p in d.files <==> p in d'.files)
    && (p in d.files && p in d'.files ==> d.files[p] == d'.files[p])
  }

  /** Nothing outside `paths` differs between the two disks. */
  ghost predicate OnlyTouched(d: Disk, d': Disk, paths: set<Path>)
  {
    forall p :: p !in paths ==> Agree(d, d', p)
  }

  lemma OnlyTouchedTrans(d1: Disk, d2: Disk, d3: Disk, s1: set<Path>, s2: set<Path>)
    requires OnlyTouched(d1, d2, s1) && OnlyTouched(d2, d3, s2)
    ensures OnlyTouched(d1, d3, s1 + s2)
  {
    forall p | p !in s1 + s2
      ensures Agree(d1, d3, p)
    {
      assert Agree(d1, d2, p) && Agree(d2, d3, p);
    }
  }

  /** `std::fs::create_dir(p)`: fails when the parent is missing, when something exists at `p`,
      or when creation is refused; otherwise adds exactly the directory `p`. */
  function CreateDirEffect(d: Disk, f: Faults, p: Path): (r: Effect<IoError>)
    ensures r.disk.files == d.files
    ensures r.outcome.Pass? <==> p != "" && ParentIsDir(d, p) && !Exists(d, p) && p !in f.denied
    ensures r.outcome.Pass? ==> r.disk.dirs == d.dirs + {p}
    ensures r.outcome.Fail? ==> r.disk == d
    ensures r.outcome == Fail(AlreadyExists) ==> Exists(d, p)
    ensures WellFormed(d) ==> WellFormed(r.disk)
  {
    if p == "" || !ParentIsDir(d, p) then Effect(Fail(NotFound), d)
    else if Exists(d, p) then Effect(Fail(AlreadyExists), d)
    else if p in f.denied then Effect(Fail(PermissionDenied), d)
    else Effect(Pass, d.(dirs := d.dirs + {p}))
  }

  /** `File::create(p)`: opens `p` for writing, creating it or truncating it to empty. */
  function CreateFileEffect(d: Disk, f: Faults, p: Path): (r: Effect<IoError>)
    ensures r.disk.dirs == d.dirs
    ensures r.outcome.Pass? <==> p != "" && ParentIsDir(d, p) && p !in d.dirs && p !in f.denied
    ensures r.outcome.Pass? ==> r.disk.files == d.files[p := []]
    ensures r.outcome.Fail? ==> r.disk == d
    ensures WellFormed(d) ==> WellFormed(r.disk)
  {
    if p == "" || !ParentIsDir(d, p) then Effect(Fail(NotFound), d)
    else if p in d.dirs then Effect(Fail(IsADirectory), d)
    else if p in f.denied then Effect(Fail(PermissionDenied), d)
    else Effect(Pass, d.(files := d.files[p := []]))
  }

  /** `write_all(bytes)` on the handle of the open file `p`: appends the bytes, or fails and leaves the file as it was. */
  function WriteAllEffect(d: Disk, f: Faults, p: Path, bytes: seq<Byte>): (r: Effect<IoError>)
    requires p in d.files
    ensures r.disk.dirs == d.dirs
    ensures r.outcome.Pass? <==> p !in f.failingWrites
    ensures r.outcome.Pass? ==> r.disk.files == d.files[p := d.files[p] + bytes]
    ensures r.outcome.Fail? ==> r.disk == d
    ensures WellFormed(d) ==> WellFormed(r.disk)
  {
    if p in f.failingWrites then Effect(Fail(WriteFailed), d)
    else Effect(Pass, d.(files := d.files[p := d.files[p] + bytes]))
  }

  /** `File::create(p)?.write_all(bytes)`: on success `p` holds exactly `bytes`; on a failed write
      it is left empty; no other path changes either way. */
  function WriteFileEffect(d: Disk, f: Faults, p: Path, bytes: seq<Byte>): (r: Effect<IoError>)
    ensures r.disk.dirs == d.dirs
    ensures r.outcome.Pass? <==> p != "" && ParentIsDir(d, p) && p !in d.dirs && p !in f.denied && p !in f.failingWrites
    ensures r.outcome.Pass? ==> r.disk.files == d.files[p := bytes]
    ensures r.outcome.Fail? ==> r.disk.files == d.files || r.disk.files == d.files[p := []]
    ensures d.files.Keys <= r.disk.files.Keys
    ensures OnlyTouched(d, r.disk, {p})
    ensures WellFormed(d) ==> WellFormed(r.disk)
  {
    var c := CreateFileEffect(d, f, p);
    if c.outcome.Fail? then c
    else
      assert c.disk.files[p] + bytes == bytes;
      WriteAllEffect(c.disk, f, p, bytes)
  }

  /** The file system of the running process. The methods are the system calls; each one
      changes this state exactly as the matching `...Effect` function says. */
  class FileSystem {
    var dirs: set<Path>
    var files: map<Path, seq<Byte>>
    const faults: Faults

    function State(): Disk
      reads this
    {
      Disk(dirs, files)
    }

    ghost predicate Valid()
      reads this
    {
      WellFormed(State())
    }

    constructor (dirs: set<Path>, files: map<Path, seq<Byte>>, faults: Faults)
      requires WellFormed(Disk(dirs, files))
      ensures Valid() && State() == Disk(dirs, files) && this.faults == faults
    {
      this.dirs := dirs;
      this.files := files;
      this.faults := faults;
    }

    /** `Path::exists(p)`. */
    method PathExists(p: Path) returns (b: bool)
      ensures b <==> p in dirs || p in files
    {
      b := p in dirs || p in files;
    }

    /** `std::fs::create_dir(p)`. */
    method CreateDir(p: Path) returns (r: Outcome<IoError>)
      requires Valid()
      modifies this
      ensures Valid()
      ensures Effect(r, State()) == CreateDirEffect(old(State()), faults, p)
    {
      var e := CreateDirEffect(State(), faults, p);
      r, dirs, files := e.outcome, e.disk.dirs, e.disk.files;
    }

    /** `File::create(p)`. */
    method CreateFile(p: Path) returns (r: Outcome<IoError>)
      requires Valid()
      modifies this
      ensures Valid()
      ensures Effect(r, State()) == CreateFileEffect(old(State()), faults, p)
    {
      var e := CreateFileEffect(State(), faults, p);
      r, dirs, files := e.outcome, e.disk.dirs, e.disk.files;
    }

    /** `write_all(bytes)` on the handle that `File::create(p)` returned. */
    method WriteAll(p: Path, bytes: seq<Byte>) returns (r: Outcome<IoError>)
      requires Valid() && p in files
      modifies this
      ensures Valid()
      ensures Effect(r, State()) == WriteAllEffect(old(State()), faults, p, bytes)
    {
      var e := WriteAllEffect(State(), faults, p, bytes);
      r, dirs, files := e.outcome, e.disk.dirs, e.disk.files;
    }
  }
}
