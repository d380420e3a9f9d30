/**
 * The hardware catalog: the closed enumerations of supported FPGA chips (`Target`) and
 * carrier boards (`DevBoard`), the identifier codec between them and their CLI names,
 * the files each one bundles (`associated_resources`), the registry shown in the help
 * commands, and `ResourceAssociation::save_resource_to`, which writes a component's
 * bundled files into a directory.
 */
module Hardware {
  import opened Wrappers
  import opened Bytes
  import opened FileSystem

  /** A display entry of the registry: the CLI name and a description. */
  datatype SupportedEntity = SupportedEntity(name: string, description: string)

  const SupportedTargets: seq<SupportedEntity> :=
    [SupportedEntity("ecp5-85k",
                     "The 85k LUT variant of the Lattice ECP5 chip.\nhttps://www.latticesemi.com/Products/FPGAandCPLD/ECP5\n")]

  const SupportedDevBoards: seq<SupportedEntity> :=
    [SupportedEntity("ulx3s", "The ULX3s dev-board made by Radiona.\nhttps://radiona.org/ulx3s/\n")]

  /** A file bundled with the program: its name and its bytes. */
  datatype Resource = Resource(filename: string, bytes: seq<Byte>)

  /** The resources of an `associated_resources()` answer; none for `None`. */
  function Files(assoc: Option<seq<Resource>>): seq<Resource>
  {
    match assoc
    case None => []
    case Some(rs) => rs
  }

  /** Stands for the bytes of the bundled `resources/ulx3s_v20.lpf`; no property depends on them. */
  const Ulx3sV20Lpf: seq<Byte> := [0x23, 0x20, 0x55, 0x4C, 0x58, 0x33, 0x53, 0x0A]

  /** A file name that names a file directly inside a directory. */
  predicate PlainFileName(name: string)
  {
    name != "" && '/' !in name
  }

  datatype StrParseError = StrParseError(received: string)

  /** What a `from_str` loop computes: the first variant, in iteration order, whose rendering is `s`. */
  function FirstMatch<T>(variants: seq<T>, render: T -> string, s: string): (r: Result<T, StrParseError>)
    ensures r.Ok? ==> exists i :: 0 <= i < |variants| && variants[i] == r.value && render(variants[i]) == s &&
                               forall j :: 0 <= j < i ==> render(variants[j]) != s
    ensures r.Err? ==> r.error == StrParseError(s) && forall i :: 0 <= i < |variants| ==> render(variants[i]) != s
  {
    if variants == [] then Err(StrParseError(s))
    else if render(variants[0]) == s then Ok(variants[0])
    else
      var r := FirstMatch(variants[1..], render, s);
      assert forall i :: 1 <= i < |variants| ==> variants[i] == variants[1..][i - 1];
      r
  }

  /** The body of both `from_str` impls: a loop over the variants with an early return. */
  method FindFirst<T>(variants: seq<T>, render: T -> string, s: string) returns (r: Result<T, StrParseError>)
    ensures r == FirstMatch(variants, render, s)
  {
    for i := 0 to |variants|
      invariant FirstMatch(variants[i..], render, s) == FirstMatch(variants, render, s)
    {
      assert variants[i..][1..] == variants[i + 1..];
      if s == render(variants[i]) {
        return Ok(variants[i]);
      }
    }
    assert variants[|variants|..] == [];
    return Err(StrParseError(s));
  }

  /** With an injective rendering, parsing the rendering of a listed variant gives that variant back. */
  lemma FirstMatchRoundTrip<T>(variants: seq<T>, render: T -> string, v: T)
    requires v in variants
    requires forall a, b :: a in variants && b in variants && render(a) == render(b) ==> a == b
    ensures FirstMatch(variants, render, render(v)) == Ok(v)
  {
  }

  datatype Target = ECP5_85k {

    /** `AsRef<str> for Target`: the identifier used on the command line and in the config file. */
    function AsRef(): string
    {
      match this
      case ECP5_85k => "ecp5-85k"
    }

    /** `ResourceAssociation::associated_resources`. */
    function AssociatedResources(): (r: Option<seq<Resource>>)
      ensures r.Some? ==> forall res :: res in r.value ==> PlainFileName(res.filename)
    {
      match this
      case ECP5_85k => None
    }

    /** `Target::iter()`: every variant, in declaration order. */
    static const Iter: seq<Target> := [ECP5_85k]

    static function Render(t: Target): string
    {
      t.AsRef()
    }

    /** What `Target::from_str(s)` returns. */
    static function Parse(s: string): (r: Result<Target, StrParseError>)
      ensures r.Ok? ==> r.value.AsRef() == s
      ensures r.Err? ==> r.error.received == s && forall t: Target :: t.AsRef() != s
    {
      FirstMatch(Iter, Render, s)
    }

    /** `Target::from_str(s)`. */
    static method FromStr(s: string) returns (r: Result<Target, StrParseError>)
      ensures r == Parse(s)
    {
      r := FindFirst(Iter, Render, s);
    }
  }

  datatype DevBoard = ULX3S {

    /** `AsRef<str> for DevBoard`. */
    function AsRef(): string
    {
      match this
      case ULX3S => "ulx3s"
    }

    /** `ResourceAssociation::associated_resources`: the board's pin-constraint file. */
    function AssociatedResources(): (r: Option<seq<Resource>>)
      ensures r.Some? ==> forall res :: res in r.value ==> PlainFileName(res.filename)
    {
      match this
      case ULX3S => Some([Resource("ulx3s_v20.lpf", Ulx3sV20Lpf)])
    }

    /** `DevBoard::iter()`. */
    static const Iter: seq<DevBoard> := [ULX3S]

    static function Render(b: DevBoard): string
    {
      b.AsRef()
    }

    /** What `DevBoard::from_str(s)` returns. */
    static function Parse(s: string): (r: Result<DevBoard, StrParseError>)
      ensures r.Ok? ==> r.value.AsRef() == s
      ensures r.Err? ==> r.error.received == s && forall b: DevBoard :: b.AsRef() != s
    {
      FirstMatch(Iter, Render, s)
    }

    /** `DevBoard::from_str(s)`. */
    static method FromStr(s: string) returns (r: Result<DevBoard, StrParseError>)
      ensures r == Parse(s)
    {
      r := FindFirst(Iter, Render, s);
    }
  }

  // ---------------------------------------------------------------------------------------
  // The identifier codec

  lemma TargetNamesDistinct(a: Target, b: Target)
    ensures a.AsRef() == b.AsRef() ==> a == b
  {
  }

  lemma TargetRoundTrip(t: Target)
    ensures Target.Parse(t.AsRef()) == Ok(t)
  {
    FirstMatchRoundTrip(Target.Iter, Target.Render, t);
  }

  lemma DevBoardNamesDistinct(a: DevBoard, b: DevBoard)
    ensures a.AsRef() == b.AsRef() ==> a == b
  {
  }

  lemma DevBoardRoundTrip(b: DevBoard)
    ensures DevBoard.Parse(b.AsRef()) == Ok(b)
  {
    FirstMatchRoundTrip(DevBoard.Iter, DevBoard.Render, b);
  }

  /** Parsing succeeds exactly on the renderings, and the success is the inverse of rendering. */
  lemma TargetParseExact(s: string)
    ensures Target.Parse(s).Ok? <==> exists t: Target :: t.AsRef() == s
    ensures Target.Parse(s).Err? ==> Target.Parse(s) == Err(StrParseError(s))
  {
    if t: Target :| t.AsRef() == s {
      TargetRoundTrip(t);
    }
  }

  lemma DevBoardParseExact(s: string)
    ensures DevBoard.Parse(s).Ok? <==> exists b: DevBoard :: b.AsRef() == s
    ensures DevBoard.Parse(s).Err? ==> DevBoard.Parse(s) == Err(StrParseError(s))
  {
    if b: DevBoard :| b.AsRef() == s {
      DevBoardRoundTrip(b);
    }
  }

  /** The identifiers of the catalog, and case-sensitive rejection of everything else. */
  lemma CodecExamples()
    ensures Target.Parse("ecp5-85k") == Ok(ECP5_85k)
    ensures DevBoard.Parse("ulx3s") == Ok(ULX3S)
    ensures Target.Parse("not-a-real-chip") == Err(StrParseError("not-a-real-chip"))
    ensures Target.Parse("ECP5-85k") == Err(StrParseError("ECP5-85k"))
    ensures DevBoard.Parse("ULX3S") == Err(StrParseError("ULX3S"))
  {
    TargetRoundTrip(ECP5_85k);
    DevBoardRoundTrip(ULX3S);
    TargetParseExact("not-a-real-chip");
    TargetParseExact("ECP5-85k");
    DevBoardParseExact("ULX3S");
  }

  // ---------------------------------------------------------------------------------------
  // The catalog and the registry

  /** `Target::iter()` and `DevBoard::iter()` list every variant once. */
  lemma IterListsEveryVariant(t: Target, b: DevBoard)
    ensures t in Target.Iter && b in DevBoard.Iter
    ensures |Target.Iter| == 1 && |DevBoard.Iter| == 1
  {
  }

  /** The chip bundles no file; the board bundles exactly its constraint file. */
  lemma CatalogResources()
    ensures ECP5_85k.AssociatedResources() == None
    ensures ULX3S.AssociatedResources() == Some([Resource("ulx3s_v20.lpf", Ulx3sV20Lpf)])
  {
  }

  /** The registry lists the catalog in iteration order, under the codec's identifiers, so
      every name offered on the command line parses to the variant it describes. */
  lemma RegistryMatchesCodec()
    ensures |SupportedTargets| == |Target.Iter|
    ensures forall i :: 0 <= i < |SupportedTargets| ==> SupportedTargets[i].name == Target.Iter[i].AsRef()
    ensures forall i :: 0 <= i < |SupportedTargets| ==> Target.Parse(SupportedTargets[i].name) == Ok(Target.Iter[i])
    ensures |SupportedDevBoards| == |DevBoard.Iter|
    ensures forall i :: 0 <= i < |SupportedDevBoards| ==> SupportedDevBoards[i].name == DevBoard.Iter[i].AsRef()
    ensures forall i :: 0 <= i < |SupportedDevBoards| ==> DevBoard.Parse(SupportedDevBoards[i].name) == Ok(DevBoard.Iter[i])
  {
    TargetRoundTrip(ECP5_85k);
    DevBoardRoundTrip(ULX3S);
  }

  // ---------------------------------------------------------------------------------------
  // ResourceAssociation::save_resource_to

  /** Where `save_resource_to(dir)` puts a resource: the directory, a slash, then the file name. */
  function ResourcePath(dir: Path, r: Resource): Path
  {
    dir + "/" + r.filename
  }

  function ResourcePaths(dir: Path, rs: seq<Resource>): set<Path>
  {
    set r | r in rs :: ResourcePath(dir, r)
  }

  /** The loop of `save_resource_to`: create and write each resource in turn, stopping at the first error.
      Directories never change, and no path other than the resources' own does either. */
  function SaveAllEffect(d: Disk, f: Faults, dir: Path, rs: seq<Resource>): (e: Effect<IoError>)
    ensures e.disk.dirs == d.dirs
    ensures d.files.Keys <= e.disk.files.Keys
    ensures OnlyTouched(d, e.disk, ResourcePaths(dir, rs))
    ensures WellFormed(d) ==> WellFormed(e.disk)
    decreases |rs|
  {
    if rs == [] then Effect(Pass, d)
    else
      var w := WriteFileEffect(d, f, ResourcePath(dir, rs[0]), rs[0].bytes);
      if w.outcome.Fail? then w
      else
        assert ResourcePaths(dir, rs) == {ResourcePath(dir, rs[0])} + ResourcePaths(dir, rs[1..]);
        SaveAllEffect(w.disk, f, dir, rs[1..])
  }

  /** Resource `k` is where the loop fails: the resources before it were all saved, its own create or
      write fails, and the loop's result is that failure, so nothing after it is attempted. */
  predicate FailsAt(d: Disk, f: Faults, dir: Path, rs: seq<Resource>, k: nat)
    requires k < |rs|
  {
    var before := SaveAllEffect(d, f, dir, rs[..k]);
    var w := WriteFileEffect(before.disk, f, ResourcePath(dir, rs[k]), rs[k].bytes);
    && before.outcome.Pass?
    && w.outcome.Fail?
    && SaveAllEffect(d, f, dir, rs) == w
  }

  /** The first error ends the loop with that error: a failing loop failed at some resource `k`, after
      saving all the resources before it, and returned exactly the failure of `k`'s create or write. */
  lemma {:induction false} SaveAllStopsAtFirstError(d: Disk, f: Faults, dir: Path, rs: seq<Resource>)
    requires SaveAllEffect(d, f, dir, rs).outcome.Fail?
    ensures exists k: nat :: k < |rs| && FailsAt(d, f, dir, rs, k)
    decreases |rs|
  {
    var w := WriteFileEffect(d, f, ResourcePath(dir, rs[0]), rs[0].bytes);
    if w.outcome.Fail? {
      assert rs[..0] == [];
      assert FailsAt(d, f, dir, rs, 0);
    } else {
      SaveAllStopsAtFirstError(w.disk, f, dir, rs[1..]);
      var k: nat :| k < |rs[1..]| && FailsAt(w.disk, f, dir, rs[1..], k);
      var pre := rs[..k + 1];
      assert pre[0] == rs[0] && pre[1..] == rs[1..][..k];
      assert SaveAllEffect(d, f, dir, pre) == SaveAllEffect(w.disk, f, dir, rs[1..][..k]);
      assert rs[k + 1] == rs[1..][k];
      assert FailsAt(d, f, dir, rs, k + 1);
    }
  }

  /** Resources with different file names land in different files. */
  lemma ResourcePathInjective(dir: Path, a: Resource, b: Resource)
    requires ResourcePath(dir, a) == ResourcePath(dir, b)
    ensures a.filename == b.filename
  {
    assert a.filename == ResourcePath(dir, a)[|dir| + 1..];
    assert b.filename == ResourcePath(dir, b)[|dir| + 1..];
  }

  /** Every resource of `rs` is a file in `dir` holding exactly its bytes. */
  predicate HoldsResources(d: Disk, dir: Path, rs: seq<Resource>)
  {
    forall r :: r in rs ==> ResourcePath(dir, r) in d.files && d.files[ResourcePath(dir, r)] == r.bytes
  }

  /** On success each resource's file holds exactly that resource's bytes (file names being distinct). */
  lemma {:induction false} SaveAllWritesEach(d: Disk, f: Faults, dir: Path, rs: seq<Resource>)
    requires SaveAllEffect(d, f, dir, rs).outcome.Pass?
    requires forall i, j :: 0 <= i < j < |rs| ==> rs[i].filename != rs[j].filename
    ensures HoldsResources(SaveAllEffect(d, f, dir, rs).disk, dir, rs)
    decreases |rs|
  {
    if rs != [] {
      var e := SaveAllEffect(d, f, dir, rs);
      var p0 := ResourcePath(dir, rs[0]);
      var w := WriteFileEffect(d, f, p0, rs[0].bytes);
      SaveAllWritesEach(w.disk, f, dir, rs[1..]);
      if p0 in ResourcePaths(dir, rs[1..]) {
        var r :| r in rs[1..] && ResourcePath(dir, r) == p0;
        ResourcePathInjective(dir, r, rs[0]);
        assert false;
      }
      assert Agree(w.disk, e.disk, p0);
    }
  }

  /** Writing into an existing directory succeeds when no resource path is a directory, refused or failing. */
  lemma {:induction false} SaveAllSucceeds(d: Disk, f: Faults, dir: Path, rs: seq<Resource>)
    requires dir in d.dirs
    requires forall r :: r in rs ==> PlainFileName(r.filename)
    requires forall p :: p in ResourcePaths(dir, rs) ==> p !in d.dirs && p !in f.denied && p !in f.failingWrites
    ensures SaveAllEffect(d, f, dir, rs).outcome.Pass?
    decreases |rs|
  {
    if rs != [] {
      var p0 := ResourcePath(dir, rs[0]);
      ParentOfJoin(dir, rs[0].filename);
      assert p0 in ResourcePaths(dir, rs);
      var w := WriteFileEffect(d, f, p0, rs[0].bytes);
      assert ResourcePaths(dir, rs[1..]) <= ResourcePaths(dir, rs);
      SaveAllSucceeds(w.disk, f, dir, rs[1..]);
    }
  }

  /** `save_resource_to(dir)` for a component whose `associated_resources()` is `assoc`: nothing at all for `None`. */
  function SaveResourceToEffect(d: Disk, f: Faults, dir: Path, assoc: Option<seq<Resource>>): (e: Effect<IoError>)
    ensures assoc.None? ==> e == Effect(Pass, d)
    ensures e.disk.dirs == d.dirs && d.files.Keys <= e.disk.files.Keys
    ensures OnlyTouched(d, e.disk, ResourcePaths(dir, Files(assoc)))
    ensures WellFormed(d) ==> WellFormed(e.disk)
  {
    match assoc
    case None => Effect(Pass, d)
    case Some(rs) => SaveAllEffect(d, f, dir, rs)
  }

  /** `ResourceAssociation::save_resource_to` for a component whose `associated_resources()` is `assoc`. */
  method SaveResourceTo(fs: FileSystem, assoc: Option<seq<Resource>>, dir: Path) returns (r: Outcome<IoError>)
    requires fs.Valid()
    modifies fs
    ensures fs.Valid()
    ensures Effect(r, fs.State()) == SaveResourceToEffect(old(fs.State()), fs.faults, dir, assoc)
  {
    r := Pass;
    if assoc.Some? {
      var resources := assoc.value;
      for i := 0 to |resources|
        invariant fs.Valid() && r == Pass
        invariant SaveAllEffect(fs.State(), fs.faults, dir, resources[i..])
               == SaveAllEffect(old(fs.State()), fs.faults, dir, resources)
      {
        assert resources[i..][1..] == resources[i + 1..];
        var path := dir + "/" + resources[i].filename;
        r := fs.CreateFile(path);
        if r.Fail? {
          return;
        }
        r := fs.WriteAll(path, resources[i].bytes);
        if r.Fail? {
          return;
        }
      }
      assert resources[|resources|..] == [];
    }
  }
}
