/**
 * `hdlman new`: materialize a project directory for a chip and an optional board.
 *
 * The five steps of `run_new_command` run in order and the first error ends the command;
 * nothing already created is removed. Each step is a method on the file system, and each
 * method is tied to a function on the abstract disk (`...Effect`) about which the lemmas
 * at the end of this module state what a run creates.
 */
module NewCommand {
  import opened Wrappers
  import opened Bytes
  import opened FileSystem
  import opened Hardware

  /** How `new` can end badly: the panic on an existing path, or an I/O error propagated by `?`. */
  datatype NewError = DirectoryAlreadyExists(name: string) | Io(error: IoError)

  // ---------------------------------------------------------------------------------------
  // Where the files go

  function ResourcesDir(name: string): Path
  {
    name + "/" + "resources"
  }

  function TopFilePath(name: string): Path
  {
    name + "/" + (name + ".v")
  }

  function YosysScriptPath(name: string): Path
  {
    name + "/" + (name + ".ys")
  }

  function MakefilePath(name: string): Path
  {
    name + "/" + "Makefile"
  }

  // ---------------------------------------------------------------------------------------
  // The toolchain fragments, chosen by exhaustive match on the component

  /** The yosys synthesis command for the chip. */
  function SynthCommand(t: Target): string
  {
    match t
    case ECP5_85k => "synth_ecp5"
  }

  /** The place-and-route invocation for the chip, reading the synthesized netlist of the project. */
  function NextpnrCommand(t: Target, name: string): string
  {
    match t
    case ECP5_85k => "nextpnr-ecp5 --85k --json build/" + name + ".json \\"
  }

  /** The constraint-file argument of the place-and-route call: a continuation line for a board, nothing without one. */
  function LpfArg(b: Option<DevBoard>): (r: string)
    ensures r == "" <==> b.None?
  {
    match b
    case Some(ULX3S) => "\n\t\t" + "--lpf resources/ulx3s_v20.lpf" + " \\"
    case None => ""
  }

  /** `dev_board_has_resources || target.associated_resources().is_some()`. */
  predicate NeedsResourcesDir(t: Target, b: Option<DevBoard>)
  {
    t.AssociatedResources().Some? || (b.Some? && b.value.AssociatedResources().Some?)
  }

  // ---------------------------------------------------------------------------------------
  // The generated texts. Only the lines that carry a substitution are kept; the fixed
  // recipe text between them is abbreviated.

  const TopFilePrologue: string := "`ifdef VERILATOR\n/* verilator lint_off UNUSED */\nmodule "
  const TopFileRest: string := "(input i_clk, input [6:0] btn, output [7:0] o_led);\n/* verilator lint_on UNUSED */\n`else\nmodule top(input clk_25mhz, input [6:0] btn, output [7:0] led, output wifi_gpio0);\n`endif\nendmodule\n    "

  /** The topfile: a blinky design whose simulation module is named after the project. */
  function TopFileText(name: string): string
  {
    TopFilePrologue + name + TopFileRest
  }

  /** The yosys script: read the topfile, synthesize for the chip into `build/<name>.json`. */
  function YosysScriptText(name: string, t: Target): string
  {
    ("read_verilog " + name + ".v") + "\n" + (SynthCommand(t) + " -noccu2 -nomux -nodram -json build/" + name + ".json") + "\n    "
  }

  const MakefilePrologue: string := ".PHONY: all\n.DELETE_ON_ERROR:\n"
  const MakefileRecipes: string := "VLOGFIL := $(TOPMOD).v\nBINFILE := $(TOPMOD).bin\nVDIRFB  := ./obj_dir\nall: $(VCDFILE)\n\nprog: build/out.bit | build_dir\n\tfujprog build/out.bit\n\nbuild/out.bit: build/$(TOPMOD)_out.config | build_dir\n\tecppack build/$(TOPMOD)_out.config build/out.bit\n\nbuild/$(TOPMOD)_out.config: build/$(TOPMOD).json | build_dir\n\t\t"
  const MakefileTail: string := "\n\t\t--textcfg build/$(TOPMOD)_out.config \n\nbuild/$(TOPMOD).json: $(TOPMOD).ys $(TOPMOD).v | build_dir\n\tyosys $(TOPMOD).ys\n\t\nbuild_dir:\n\tmkdir -p build\n    "

  /** The Makefile up to the slot of the constraint-file argument. */
  function MakefileHead(name: string, t: Target): string
  {
    MakefilePrologue + ("TOPMOD  := " + name) + "\n" + MakefileRecipes + NextpnrCommand(t, name)
  }

  function MakefileText(name: string, t: Target, b: Option<DevBoard>): string
  {
    MakefileHead(name, t) + LpfArg(b) + MakefileTail
  }

  // ---------------------------------------------------------------------------------------
  // The steps on the abstract disk

  function Lift(e: Effect<IoError>): (r: Effect<NewError>)
    ensures r.disk == e.disk
    ensures r.outcome.Pass? <==> e.outcome.Pass?
    ensures e.outcome.Fail? ==> r.outcome == Fail(Io(e.outcome.error))
  {
    match e.outcome
    case Pass => Effect(Pass, e.disk)
    case Fail(err) => Effect(Fail(Io(err)), e.disk)
  }

  /** `create_dirs`: refuse an existing path, then create the project directory and, only when
      some component bundles files, its `resources` subdirectory. Files never change. */
  function CreateDirsEffect(d: Disk, f: Faults, name: string, t: Target, b: Option<DevBoard>): (e: Effect<NewError>)
    ensures e.outcome == Fail(DirectoryAlreadyExists(name)) <==> Exists(d, name)
    ensures Exists(d, name) ==> e.disk == d
    ensures e.disk.files == d.files
    ensures d.dirs <= e.disk.dirs <= d.dirs + {name, ResourcesDir(name)}
    ensures ResourcesDir(name) in e.disk.dirs - d.dirs ==> NeedsResourcesDir(t, b)
    ensures e.outcome.Pass? ==> name in e.disk.dirs && (NeedsResourcesDir(t, b) ==> ResourcesDir(name) in e.disk.dirs)
    ensures e.disk != d ==> name in e.disk.dirs
    ensures OnlyTouched(d, e.disk, {name, ResourcesDir(name)})
    ensures WellFormed(d) ==> WellFormed(e.disk)
  {
    if Exists(d, name) then Effect(Fail(DirectoryAlreadyExists(name)), d)
    else
      var p := CreateDirEffect(d, f, name);
      if p.outcome.Fail? || !NeedsResourcesDir(t, b) then Lift(p)
      else Lift(CreateDirEffect(p.disk, f, ResourcesDir(name)))
  }

  /** `create_top_file`: on success the topfile holds exactly its text; only that path changes. */
  function TopFileEffect(d: Disk, f: Faults, name: string): (e: Effect<IoError>)
    ensures e.disk.dirs == d.dirs && d.files.Keys <= e.disk.files.Keys
    ensures e.outcome.Pass? ==> e.disk.files == d.files[TopFilePath(name) := Encode(TopFileText(name))]
    ensures OnlyTouched(d, e.disk, {TopFilePath(name)})
  {
    WriteFileEffect(d, f, TopFilePath(name), Encode(TopFileText(name)))
  }

  /** `create_yosys_script`: on success the script holds exactly its text; only that path changes. */
  function YosysScriptEffect(d: Disk, f: Faults, name: string, t: Target): (e: Effect<IoError>)
    ensures e.disk.dirs == d.dirs && d.files.Keys <= e.disk.files.Keys
    ensures e.outcome.Pass? ==> e.disk.files == d.files[YosysScriptPath(name) := Encode(YosysScriptText(name, t))]
    ensures OnlyTouched(d, e.disk, {YosysScriptPath(name)})
  {
    WriteFileEffect(d, f, YosysScriptPath(name), Encode(YosysScriptText(name, t)))
  }

  /** `create_resource_files`: the chip's files, then the board's, into `<name>/resources`. */
  function ResourceFilesEffect(d: Disk, f: Faults, name: string, t: Target, b: Option<DevBoard>): (r: Effect<IoError>)
    ensures r.disk.dirs == d.dirs && d.files.Keys <= r.disk.files.Keys
    ensures OnlyTouched(d, r.disk, BundledFilePaths(name, t, b))
    ensures WellFormed(d) ==> WellFormed(r.disk)
  {
    var e := SaveResourceToEffect(d, f, ResourcesDir(name), t.AssociatedResources());
    if e.outcome.Fail? || b.None? then e
    else
      var r := SaveResourceToEffect(e.disk, f, ResourcesDir(name), b.value.AssociatedResources());
      OnlyTouchedTrans(d, e.disk, r.disk, ResourcePaths(ResourcesDir(name), Files(t.AssociatedResources())),
                       ResourcePaths(ResourcesDir(name), Files(b.value.AssociatedResources())));
      r
  }

  /** `create_makefile`: on success the Makefile holds exactly its text; only that path changes. */
  function MakefileEffect(d: Disk, f: Faults, name: string, t: Target, b: Option<DevBoard>): (e: Effect<IoError>)
    ensures e.disk.dirs == d.dirs && d.files.Keys <= e.disk.files.Keys
    ensures e.outcome.Pass? ==> e.disk.files == d.files[MakefilePath(name) := Encode(MakefileText(name, t, b))]
    ensures OnlyTouched(d, e.disk, {MakefilePath(name)})
  {
    WriteFileEffect(d, f, MakefilePath(name), Encode(MakefileText(name, t, b)))
  }

  /** The bytes of the three generated files. */
  datatype Texts = Texts(top: seq<Byte>, script: seq<Byte>, makefile: seq<Byte>)

  function GeneratedTexts(name: string, t: Target, b: Option<DevBoard>): Texts
  {
    Texts(Encode(TopFileText(name)), Encode(YosysScriptText(name, t)), Encode(MakefileText(name, t, b)))
  }

  /** The first four steps of `run_new_command`, writing the given texts, ending at the first failure. */
  function StepsBeforeMakefile(d: Disk, f: Faults, name: string, t: Target, b: Option<DevBoard>, x: Texts): Effect<NewError>
  {
    var s1 := CreateDirsEffect(d, f, name, t, b);
    if s1.outcome.Fail? then s1
    else
      var s2 := WriteFileEffect(s1.disk, f, TopFilePath(name), x.top);
      if s2.outcome.Fail? then Lift(s2)
      else
        var s3 := WriteFileEffect(s2.disk, f, YosysScriptPath(name), x.script);
        if s3.outcome.Fail? then Lift(s3)
        else Lift(ResourceFilesEffect(s3.disk, f, name, t, b))
  }

  /** The five steps of `run_new_command`, writing the given texts, ending at the first failure. */
  function RunWith(d: Disk, f: Faults, name: string, t: Target, b: Option<DevBoard>, x: Texts): Effect<NewError>
  {
    var s4 := StepsBeforeMakefile(d, f, name, t, b, x);
    if s4.outcome.Fail? then s4
    else Lift(WriteFileEffect(s4.disk, f, MakefilePath(name), x.makefile))
  }

  /** `run_new_command`: the five steps writing the generated texts. */
  function RunNewEffect(d: Disk, f: Faults, name: string, t: Target, b: Option<DevBoard>): Effect<NewError>
  {
    RunWith(d, f, name, t, b, GeneratedTexts(name, t, b))
  }

  // ---------------------------------------------------------------------------------------
  // The steps as the program runs them

  /** `create_dirs`. */
  method CreateDirs(fs: FileSystem, name: string, t: Target, b: Option<DevBoard>) returns (r: Outcome<NewError>)
    requires fs.Valid()
    modifies fs
    ensures fs.Valid()
    ensures Effect(r, fs.State()) == CreateDirsEffect(old(fs.State()), fs.faults, name, t, b)
  {
    var taken := fs.PathExists(name);
    if taken {
      return Fail(DirectoryAlreadyExists(name));
    }
    var e := fs.CreateDir(name);
    if e.Fail? {
      return Fail(Io(e.error));
    }
    var devBoardHasResources := b.Some? && b.value.AssociatedResources().Some?;
    if t.AssociatedResources().Some? || devBoardHasResources {
      e := fs.CreateDir(ResourcesDir(name));
      if e.Fail? {
        return Fail(Io(e.error));
      }
    }
    return Pass;
  }

  /** `create_top_file`. */
  method CreateTopFile(fs: FileSystem, name: string) returns (r: Outcome<IoError>)
    requires fs.Valid()
    modifies fs
    ensures fs.Valid()
    ensures Effect(r, fs.State()) == TopFileEffect(old(fs.State()), fs.faults, name)
  {
    r := fs.CreateFile(TopFilePath(name));
    if r.Fail? {
      return;
    }
    r := fs.WriteAll(TopFilePath(name), Encode(TopFileText(name)));
  }

  /** `create_yosys_script`. */
  method CreateYosysScript(fs: FileSystem, name: string, t: Target) returns (r: Outcome<IoError>)
    requires fs.Valid()
    modifies fs
    ensures fs.Valid()
    ensures Effect(r, fs.State()) == YosysScriptEffect(old(fs.State()), fs.faults, name, t)
  {
    r := fs.CreateFile(YosysScriptPath(name));
    if r.Fail? {
      return;
    }
    r := fs.WriteAll(YosysScriptPath(name), Encode(YosysScriptText(name, t)));
  }

  /** `create_resource_files`. */
  method CreateResourceFiles(fs: FileSystem, name: string, t: Target, b: Option<DevBoard>) returns (r: Outcome<IoError>)
    requires fs.Valid()
    modifies fs
    ensures fs.Valid()
    ensures Effect(r, fs.State()) == ResourceFilesEffect(old(fs.State()), fs.faults, name, t, b)
  {
    var dir := ResourcesDir(name);
    r := SaveResourceTo(fs, t.AssociatedResources(), dir);
    if r.Fail? {
      return;
    }
    if b.Some? {
      r := SaveResourceTo(fs, b.value.AssociatedResources(), dir);
    }
  }

  /** `create_makefile`. */
  method CreateMakefile(fs: FileSystem, name: string, t: Target, b: Option<DevBoard>) returns (r: Outcome<IoError>)
    requires fs.Valid()
    modifies fs
    ensures fs.Valid()
    ensures Effect(r, fs.State()) == MakefileEffect(old(fs.State()), fs.faults, name, t, b)
  {
    r := fs.CreateFile(MakefilePath(name));
    if r.Fail? {
      return;
    }
    r := fs.WriteAll(MakefilePath(name), Encode(MakefileText(name, t, b)));
  }

  /** `run_new_command`. */
  method RunNewCommand(fs: FileSystem, name: string, t: Target, b: Option<DevBoard>) returns (r: Outcome<NewError>)
    requires fs.Valid()
    modifies fs
    ensures fs.Valid()
    ensures Effect(r, fs.State()) == RunNewEffect(old(fs.State()), fs.faults, name, t, b)
  {
    ghost var x := GeneratedTexts(name, t, b);
    ghost var d0 := fs.State();
    r := CreateDirs(fs, name, t, b);
    if r.Fail? {
      return;
    }
    var io := CreateTopFile(fs, name);
    if io.Fail? {
      return Fail(Io(io.error));
    }
    io := CreateYosysScript(fs, name, t);
    if io.Fail? {
      return Fail(Io(io.error));
    }
    io := CreateResourceFiles(fs, name, t, b);
    if io.Fail? {
      return Fail(Io(io.error));
    }
    assert StepsBeforeMakefile(d0, fs.faults, name, t, b, x) == Effect(Pass, fs.State());
    io := CreateMakefile(fs, name, t, b);
    r := if io.Fail? then Fail(Io(io.error)) else Pass;
  }

  // ---------------------------------------------------------------------------------------
  // The generated texts carry the chosen fragments

  /** The yosys script's two lines, whatever they hold, are both in it. */
  lemma YosysScriptShape(read: string, synth: string, tail: string)
    ensures Contains(read + "\n" + synth + tail, read) && Contains(read + "\n" + synth + tail, synth)
  {
    ContainsSelf(read);
    ContainsInLeft(read, "\n", read);
    ContainsInLeft(read + "\n", synth, read);
    ContainsInLeft(read + "\n" + synth, tail, read);
    ContainsBetween(read + "\n", synth, tail);
  }

  /** The yosys script reads the topfile and runs the chip's synthesis command into `build/<name>.json`. */
  lemma YosysScriptFragments(name: string, t: Target)
    ensures Contains(Encode(YosysScriptText(name, t)), Encode("read_verilog " + name + ".v"))
    ensures Contains(Encode(YosysScriptText(name, t)),
                     Encode(SynthCommand(t) + " -noccu2 -nomux -nodram -json build/" + name + ".json"))
    ensures SynthCommand(ECP5_85k) == "synth_ecp5"
  {
    var read := "read_verilog " + name + ".v";
    var synth := SynthCommand(t) + " -noccu2 -nomux -nodram -json build/" + name + ".json";
    YosysScriptShape(read, synth, "\n    ");
    EncodeContains(YosysScriptText(name, t), read);
    EncodeContains(YosysScriptText(name, t), synth);
  }

  /** The Makefile's substituted pieces, whatever they hold, are all in it. */
  lemma MakefileShape(prologue: string, top: string, recipes: string, pnr: string, lpf: string, tail: string)
    ensures var m := prologue + top + "\n" + recipes + pnr + lpf + tail;
            Contains(m, top) && Contains(m, pnr) && Contains(m, lpf)
  {
    var head := prologue + top + "\n" + recipes + pnr;
    ContainsBetween(prologue, top, "\n");
    ContainsInLeft(prologue + top + "\n", recipes, top);
    ContainsInLeft(prologue + top + "\n" + recipes, pnr, top);
    ContainsInLeft(head, lpf, top);
    ContainsInLeft(head + lpf, tail, top);
    ContainsSelf(pnr);
    ContainsInRight(prologue + top + "\n" + recipes, pnr, pnr);
    ContainsInLeft(head, lpf, pnr);
    ContainsInLeft(head + lpf, tail, pnr);
    ContainsBetween(head, lpf, tail);
  }

  /** The Makefile names the project as its top module and carries the chip's place-and-route call. */
  lemma MakefileFragments(name: string, t: Target, b: Option<DevBoard>)
    ensures Contains(Encode(MakefileText(name, t, b)), Encode("TOPMOD  := " + name))
    ensures Contains(Encode(MakefileText(name, t, b)), Encode(NextpnrCommand(t, name)))
    ensures NextpnrCommand(ECP5_85k, name) == "nextpnr-ecp5 --85k --json build/" + name + ".json \\"
  {
    var m := MakefileText(name, t, b);
    MakefileShape(MakefilePrologue, "TOPMOD  := " + name, MakefileRecipes, NextpnrCommand(t, name), LpfArg(b), MakefileTail);
    EncodeContains(m, "TOPMOD  := " + name);
    EncodeContains(m, NextpnrCommand(t, name));
  }

  /** With the ULX3S board, the Makefile passes the board's constraint file to place-and-route. */
  lemma MakefilePassesConstraintFile(name: string, t: Target)
    ensures Contains(Encode(MakefileText(name, t, Some(ULX3S))), Encode("--lpf resources/ulx3s_v20.lpf"))
  {
    var m := MakefileText(name, t, Some(ULX3S));
    var lpf := "--lpf resources/ulx3s_v20.lpf";
    MakefileShape(MakefilePrologue, "TOPMOD  := " + name, MakefileRecipes, NextpnrCommand(t, name), LpfArg(Some(ULX3S)), MakefileTail);
    ContainsBetween("\n\t\t", lpf, " \\");
    ContainsTrans(m, LpfArg(Some(ULX3S)), lpf);
    EncodeContains(m, lpf);
  }

  /** Without a board the Makefile is the board's Makefile with exactly the constraint-file argument left out. */
  lemma MakefileWithoutBoard(name: string, t: Target, bd: DevBoard)
    ensures LpfArg(None) == ""
    ensures var m0 := MakefileText(name, t, None);
            exists k :: 0 <= k <= |m0| && MakefileText(name, t, Some(bd)) == m0[..k] + LpfArg(Some(bd)) + m0[k..]
  {
    var head := MakefileHead(name, t);
    var m0 := MakefileText(name, t, None);
    assert m0 == head + MakefileTail;
    SpliceAt(head, LpfArg(Some(bd)), MakefileTail);
    var k := |head|;
    assert MakefileText(name, t, Some(bd)) == m0[..k] + LpfArg(Some(bd)) + m0[k..];
  }

  /** The constraint-file slot is empty without a board; with a board it is a continuation line holding
      `--lpf resources/<file>`, where `<file>` is the one constraint file the board bundles. */
  lemma LpfArgNamesBoardFile(b: Option<DevBoard>)
    ensures b.None? ==> LpfArg(b) == ""
    ensures b.Some? ==> var rs := Files(b.value.AssociatedResources());
                        |rs| == 1 && LpfArg(b) == "\n\t\t" + ("--lpf resources/" + rs[0].filename) + " \\"
  {
  }

  // ---------------------------------------------------------------------------------------
  // The project layout

  /** The files that `create_resource_files` writes for these components. */
  function BundledFilePaths(name: string, t: Target, b: Option<DevBoard>): set<Path>
  {
    ResourcePaths(ResourcesDir(name), Files(t.AssociatedResources()))
      + (if b.Some? then ResourcePaths(ResourcesDir(name), Files(b.value.AssociatedResources())) else {})
  }

  /** The catalog's only bundled file is the board's constraint file. */
  lemma BundledFilePathsValue(name: string, t: Target, b: Option<DevBoard>)
    ensures BundledFilePaths(name, t, b) == if b.Some? then {ResourcesDir(name) + "/" + "ulx3s_v20.lpf"} else {}
  {
    CatalogResources();
    var lpf := Resource("ulx3s_v20.lpf", Ulx3sV20Lpf);
    assert ResourcePaths(ResourcesDir(name), []) == {};
    assert ResourcePaths(ResourcesDir(name), [lpf]) == {ResourcePath(ResourcesDir(name), lpf)};
  }

  /** Every path that `run_new_command` creates or writes. */
  function ProjectPaths(name: string, t: Target, b: Option<DevBoard>): set<Path>
  {
    {name, ResourcesDir(name), TopFilePath(name), YosysScriptPath(name), MakefilePath(name)} + BundledFilePaths(name, t, b)
  }

  /** The paths of one project are pairwise distinct, and all lie under the project directory. */
  lemma ProjectPathsDistinct(name: string, t: Target, b: Option<DevBoard>)
    ensures name != ResourcesDir(name) && name != TopFilePath(name) && name != YosysScriptPath(name) && name != MakefilePath(name)
    ensures ResourcesDir(name) != TopFilePath(name) && ResourcesDir(name) != YosysScriptPath(name) && ResourcesDir(name) != MakefilePath(name)
    ensures TopFilePath(name) != YosysScriptPath(name) && TopFilePath(name) != MakefilePath(name) && YosysScriptPath(name) != MakefilePath(name)
    ensures forall p :: p in BundledFilePaths(name, t, b) ==>
              p != name && p != ResourcesDir(name) && p != TopFilePath(name) && p != YosysScriptPath(name) && p != MakefilePath(name)
    ensures forall p :: p in ProjectPaths(name, t, b) ==> name <= p
  {
    var r, v, y, m := ResourcesDir(name), TopFilePath(name), YosysScriptPath(name), MakefilePath(name);
    assert r[|r| - 1] == 's' && r[|r| - 2] == 'e';
    assert v[|v| - 1] == 'v';
    assert y[|y| - 1] == 's' && y[|y| - 2] == 'y';
    assert m[|m| - 1] == 'e';
    BundledFilePathsValue(name, t, b);
    var lpf := r + "/" + "ulx3s_v20.lpf";
    assert lpf[|lpf| - 1] == 'f';
    assert lpf[..|name|] == name;
  }

  /** For a project name without '/', each path of a project sits directly in the directory that precedes it. */
  lemma ProjectLayout(name: string, t: Target, b: Option<DevBoard>)
    requires '/' !in name
    ensures Parent(name) == ""
    ensures Parent(ResourcesDir(name)) == name && Parent(TopFilePath(name)) == name
    ensures Parent(YosysScriptPath(name)) == name && Parent(MakefilePath(name)) == name
    ensures forall p :: p in BundledFilePaths(name, t, b) ==> Parent(p) == ResourcesDir(name)
  {
    ParentOfPlain(name);
    ResourcesDirParent(name);
    MakefileParent(name);
    TopFileParent(name);
    ConstraintFileParent(name);
    YosysScriptParent(name);
    BundledFilePathsValue(name, t, b);
  }

  lemma ResourcesDirParent(name: string)
    ensures Parent(ResourcesDir(name)) == name
  {
    ParentOfJoin(name, "resources");
  }

  lemma MakefileParent(name: string)
    ensures Parent(MakefilePath(name)) == name
  {
    ParentOfJoin(name, "Makefile");
  }

  lemma TopFileParent(name: string)
    requires '/' !in name
    ensures Parent(TopFilePath(name)) == name
  {
    assert '/' !in name + ".v";
    ParentOfJoin(name, name + ".v");
  }

  lemma YosysScriptParent(name: string)
    requires '/' !in name
    ensures Parent(YosysScriptPath(name)) == name
  {
    assert '/' !in name + ".ys";
    ParentOfJoin(name, name + ".ys");
  }

  lemma ConstraintFileParent(name: string)
    ensures Parent(ResourcesDir(name) + "/" + "ulx3s_v20.lpf") == ResourcesDir(name)
  {
    ParentOfJoin(ResourcesDir(name), "ulx3s_v20.lpf");
  }

  // ---------------------------------------------------------------------------------------
  // What a run does, whatever the generated texts are

  /** The first four steps touch only the project's directories, its topfile, its script and its bundled
      files; they remove nothing, and after `create_dirs` no step changes the directories. */
  lemma StepsBeforeMakefileFrame(d: Disk, f: Faults, name: string, t: Target, b: Option<DevBoard>, x: Texts)
    ensures var s := StepsBeforeMakefile(d, f, name, t, b, x).disk;
            && s.dirs == CreateDirsEffect(d, f, name, t, b).disk.dirs
            && d.files.Keys <= s.files.Keys
            && OnlyTouched(d, s, {name, ResourcesDir(name), TopFilePath(name), YosysScriptPath(name)} + BundledFilePaths(name, t, b))
            && (WellFormed(d) ==> WellFormed(s))
  {
    var dirs := {name, ResourcesDir(name)};
    var s1 := CreateDirsEffect(d, f, name, t, b);
    if s1.outcome.Pass? {
      var s2 := WriteFileEffect(s1.disk, f, TopFilePath(name), x.top);
      OnlyTouchedTrans(d, s1.disk, s2.disk, dirs, {TopFilePath(name)});
      if s2.outcome.Pass? {
        var s3 := WriteFileEffect(s2.disk, f, YosysScriptPath(name), x.script);
        OnlyTouchedTrans(d, s2.disk, s3.disk, dirs + {TopFilePath(name)}, {YosysScriptPath(name)});
        if s3.outcome.Pass? {
          var s4 := ResourceFilesEffect(s3.disk, f, name, t, b);
          var before := dirs + {TopFilePath(name)} + {YosysScriptPath(name)};
          OnlyTouchedTrans(d, s3.disk, s4.disk, before, BundledFilePaths(name, t, b));
        }
      }
    }
  }

  /** A run adds to the disk and removes nothing (a failed run leaves its partial tree), it touches
      nothing outside the project directory, and once it has changed anything the project directory exists. */
  lemma RunFrame(d: Disk, f: Faults, name: string, t: Target, b: Option<DevBoard>, x: Texts)
    ensures var s := RunWith(d, f, name, t, b, x).disk;
            && d.dirs <= s.dirs && d.files.Keys <= s.files.Keys
            && OnlyTouched(d, s, ProjectPaths(name, t, b))
            && (forall p :: p in ProjectPaths(name, t, b) ==> name <= p)
            && (s != d ==> name in s.dirs)
            && (WellFormed(d) ==> WellFormed(s))
  {
    StepsBeforeMakefileFrame(d, f, name, t, b, x);
    ProjectPathsDistinct(name, t, b);
    var s1 := CreateDirsEffect(d, f, name, t, b);
    var s4 := StepsBeforeMakefile(d, f, name, t, b, x);
    var early := {name, ResourcesDir(name), TopFilePath(name), YosysScriptPath(name)} + BundledFilePaths(name, t, b);
    assert early <= ProjectPaths(name, t, b);
    if s4.outcome.Pass? {
      var s5 := WriteFileEffect(s4.disk, f, MakefilePath(name), x.makefile);
      OnlyTouchedTrans(d, s4.disk, s5.disk, early, {MakefilePath(name)});
      assert early + {MakefilePath(name)} == ProjectPaths(name, t, b);
    }
  }

  /** `run_new_command` refuses exactly the names already present on disk, and then changes nothing. */
  lemma RunRejectsExistingPath(d: Disk, f: Faults, name: string, t: Target, b: Option<DevBoard>, x: Texts)
    ensures RunWith(d, f, name, t, b, x).outcome == Fail(DirectoryAlreadyExists(name)) <==> Exists(d, name)
    ensures Exists(d, name) ==> RunWith(d, f, name, t, b, x).disk == d
  {
  }

  /** A second run with the same name is refused, whatever the chip, board and texts, once the first
      succeeded or created anything. */
  lemma SecondRunRejected(d: Disk, f: Faults, name: string, t: Target, b: Option<DevBoard>, x: Texts,
                          t2: Target, b2: Option<DevBoard>, x2: Texts)
    requires RunWith(d, f, name, t, b, x).outcome.Pass? || RunWith(d, f, name, t, b, x).disk != d
    ensures var s := RunWith(d, f, name, t, b, x).disk;
            RunWith(s, f, name, t2, b2, x2) == Effect(Fail(DirectoryAlreadyExists(name)), s)
  {
    RunFrame(d, f, name, t, b, x);
    StepsBeforeMakefileFrame(d, f, name, t, b, x);
    assert name in RunWith(d, f, name, t, b, x).disk.dirs;
  }

  /** The file contents the first four steps leave when they all succeed. */
  lemma StepsBeforeMakefileContents(d: Disk, f: Faults, name: string, t: Target, b: Option<DevBoard>, x: Texts)
    requires StepsBeforeMakefile(d, f, name, t, b, x).outcome.Pass?
    ensures var s := StepsBeforeMakefile(d, f, name, t, b, x).disk;
            && TopFilePath(name) in s.files && s.files[TopFilePath(name)] == x.top
            && YosysScriptPath(name) in s.files && s.files[YosysScriptPath(name)] == x.script
            && HoldsResources(s, ResourcesDir(name), Files(t.AssociatedResources()))
            && (b.Some? ==> HoldsResources(s, ResourcesDir(name), Files(b.value.AssociatedResources())))
  {
    ProjectPathsDistinct(name, t, b);
    var s1 := CreateDirsEffect(d, f, name, t, b);
    var s2 := WriteFileEffect(s1.disk, f, TopFilePath(name), x.top);
    var s3 := WriteFileEffect(s2.disk, f, YosysScriptPath(name), x.script);
    var s4 := ResourceFilesEffect(s3.disk, f, name, t, b);
    var dir := ResourcesDir(name);
    assert Agree(s2.disk, s3.disk, TopFilePath(name));
    CatalogResources();
    match t
    case ECP5_85k =>
      assert SaveResourceToEffect(s3.disk, f, dir, t.AssociatedResources()) == Effect(Pass, s3.disk);
      match b
      case None =>
      case Some(ULX3S) =>
        var rs := Files(ULX3S.AssociatedResources());
        SaveAllWritesEach(s3.disk, f, dir, rs);
        assert ResourcePaths(dir, rs) <= BundledFilePaths(name, t, b);
        assert Agree(s3.disk, s4.disk, TopFilePath(name)) && Agree(s3.disk, s4.disk, YosysScriptPath(name));
  }

  /** A successful run leaves the project directory, the topfile, the yosys script and the Makefile with
      exactly the given texts, every bundled file with its bytes verbatim, and `resources/` when needed. */
  lemma RunCreatesProject(d: Disk, f: Faults, name: string, t: Target, b: Option<DevBoard>, x: Texts)
    requires RunWith(d, f, name, t, b, x).outcome.Pass?
    ensures var s := RunWith(d, f, name, t, b, x).disk;
            && name in s.dirs
            && (NeedsResourcesDir(t, b) ==> ResourcesDir(name) in s.dirs)
            && TopFilePath(name) in s.files && s.files[TopFilePath(name)] == x.top
            && YosysScriptPath(name) in s.files && s.files[YosysScriptPath(name)] == x.script
            && MakefilePath(name) in s.files && s.files[MakefilePath(name)] == x.makefile
            && HoldsResources(s, ResourcesDir(name), Files(t.AssociatedResources()))
            && (b.Some? ==> HoldsResources(s, ResourcesDir(name), Files(b.value.AssociatedResources())))
  {
    StepsBeforeMakefileFrame(d, f, name, t, b, x);
    StepsBeforeMakefileContents(d, f, name, t, b, x);
    ProjectPathsDistinct(name, t, b);
    var s4 := StepsBeforeMakefile(d, f, name, t, b, x).disk;
    var s5 := WriteFileEffect(s4, f, MakefilePath(name), x.makefile).disk;
    assert Agree(s4, s5, TopFilePath(name)) && Agree(s4, s5, YosysScriptPath(name));
    forall r | r in Files(t.AssociatedResources()) || (b.Some? && r in Files(b.value.AssociatedResources()))
      ensures Agree(s4, s5, ResourcePath(ResourcesDir(name), r))
    {
      assert ResourcePath(ResourcesDir(name), r) in BundledFilePaths(name, t, b);
    }
  }

  /** The steps run in order and the first error ends the run: a Makefile the run produced means every
      earlier file was written in full, and a yosys script it produced means the topfile was. */
  lemma RunOrder(d: Disk, f: Faults, name: string, t: Target, b: Option<DevBoard>, x: Texts)
    ensures var s := RunWith(d, f, name, t, b, x).disk;
            MakefilePath(name) !in d.files && MakefilePath(name) in s.files ==>
              && StepsBeforeMakefile(d, f, name, t, b, x).outcome.Pass?
              && TopFilePath(name) in s.files && s.files[TopFilePath(name)] == x.top
              && YosysScriptPath(name) in s.files && s.files[YosysScriptPath(name)] == x.script
              && HoldsResources(s, ResourcesDir(name), Files(t.AssociatedResources()))
              && (b.Some? ==> HoldsResources(s, ResourcesDir(name), Files(b.value.AssociatedResources())))
    ensures var s := RunWith(d, f, name, t, b, x).disk;
            YosysScriptPath(name) !in d.files && YosysScriptPath(name) in s.files ==>
              TopFilePath(name) in s.files && s.files[TopFilePath(name)] == x.top
  {
    ProjectPathsDistinct(name, t, b);
    StepsBeforeMakefileFrame(d, f, name, t, b, x);
    var s := RunWith(d, f, name, t, b, x).disk;
    var s4 := StepsBeforeMakefile(d, f, name, t, b, x);
    if s4.outcome.Pass? {
      StepsBeforeMakefileContents(d, f, name, t, b, x);
      var s5 := WriteFileEffect(s4.disk, f, MakefilePath(name), x.makefile).disk;
      assert Agree(s4.disk, s5, TopFilePath(name)) && Agree(s4.disk, s5, YosysScriptPath(name));
      forall r | b.Some? && r in Files(b.value.AssociatedResources())
        ensures Agree(s4.disk, s5, ResourcePath(ResourcesDir(name), r))
      {
        assert ResourcePath(ResourcesDir(name), r) in BundledFilePaths(name, t, b);
      }
    } else {
      assert Agree(d, s, MakefilePath(name));
      ScriptImpliesTopFile(d, f, name, t, b, x);
    }
  }

  /** When the first four steps fail, a yosys script they produced means the topfile was written. */
  lemma ScriptImpliesTopFile(d: Disk, f: Faults, name: string, t: Target, b: Option<DevBoard>, x: Texts)
    requires StepsBeforeMakefile(d, f, name, t, b, x).outcome.Fail?
    ensures var s := StepsBeforeMakefile(d, f, name, t, b, x).disk;
            YosysScriptPath(name) !in d.files && YosysScriptPath(name) in s.files ==>
              TopFilePath(name) in s.files && s.files[TopFilePath(name)] == x.top
  {
    ProjectPathsDistinct(name, t, b);
    var s1 := CreateDirsEffect(d, f, name, t, b);
    if s1.outcome.Pass? {
      var s2 := WriteFileEffect(s1.disk, f, TopFilePath(name), x.top);
      if s2.outcome.Pass? {
        var s3 := WriteFileEffect(s2.disk, f, YosysScriptPath(name), x.script);
        assert Agree(s2.disk, s3.disk, TopFilePath(name));
        if s3.outcome.Pass? {
          var e := SaveResourceToEffect(s3.disk, f, ResourcesDir(name), t.AssociatedResources());
          assert Agree(s3.disk, e.disk, TopFilePath(name));
          if e.outcome.Pass? && b.Some? {
            var e2 := SaveResourceToEffect(e.disk, f, ResourcesDir(name), b.value.AssociatedResources());
            assert Agree(e.disk, e2.disk, TopFilePath(name));
          }
        }
      } else {
        assert Agree(s1.disk, s2.disk, YosysScriptPath(name));
      }
    }
  }

  /** `resources/` is created only for components that bundle files, and a successful run creates it
      whenever they do; so a bare ECP5 project has none, and a ULX3S project has one. */
  lemma ResourcesDirIffNeeded(d: Disk, f: Faults, name: string, t: Target, b: Option<DevBoard>, x: Texts)
    requires WellFormed(d) && name != "" && !Exists(d, name)
    ensures ResourcesDir(name) in RunWith(d, f, name, t, b, x).disk.dirs ==> NeedsResourcesDir(t, b)
    ensures RunWith(d, f, name, t, b, x).outcome.Pass? ==>
              (ResourcesDir(name) in RunWith(d, f, name, t, b, x).disk.dirs <==> NeedsResourcesDir(t, b))
    ensures !NeedsResourcesDir(ECP5_85k, None) && NeedsResourcesDir(t, Some(ULX3S))
    ensures BundledFilePaths(name, t, b) != {} ==> NeedsResourcesDir(t, b)
  {
    ResourcesDirParent(name);
    NothingBelowMissingDir(d, name, ResourcesDir(name));
    StepsBeforeMakefileFrame(d, f, name, t, b, x);
    CatalogResources();
    if RunWith(d, f, name, t, b, x).outcome.Pass? {
      RunCreatesProject(d, f, name, t, b, x);
    }
  }

  /** No system call on a path inside the project directory is refused or fails. */
  predicate Unobstructed(f: Faults, name: string)
  {
    && (forall p :: p in f.denied ==> !(name <= p))
    && (forall p :: p in f.failingWrites ==> !(name <= p))
  }

  /** `create_dirs` succeeds on a fresh plain name when nothing inside it is refused, and then the project
      directory and, when needed, `resources/` are empty directories still holding no files. */
  lemma CreateDirsSucceeds(d: Disk, f: Faults, name: string, t: Target, b: Option<DevBoard>)
    requires WellFormed(d) && name != "" && '/' !in name && !Exists(d, name) && Unobstructed(f, name)
    ensures CreateDirsEffect(d, f, name, t, b).outcome.Pass?
    ensures CreateDirsEffect(d, f, name, t, b).disk.dirs == d.dirs + {name} + (if NeedsResourcesDir(t, b) then {ResourcesDir(name)} else {})
  {
    ProjectLayout(name, t, b);
    ProjectPathsDistinct(name, t, b);
    assert name <= name;
    var p := CreateDirEffect(d, f, name);
    assert p.outcome.Pass?;
    if NeedsResourcesDir(t, b) {
      assert ResourcesDir(name) in ProjectPaths(name, t, b);
      NothingBelowMissingDir(d, name, ResourcesDir(name));
      assert CreateDirEffect(p.disk, f, ResourcesDir(name)).outcome.Pass?;
    }
  }

  /** Writing one file of the project succeeds once its directory exists and nothing is in its way. */
  lemma ProjectFileWritable(d: Disk, f: Faults, name: string, dir: Path, p: Path, bytes: seq<Byte>)
    requires WellFormed(d) && dir != "" && Parent(p) == dir && dir in d.dirs && p !in d.dirs
    requires Unobstructed(f, name) && name <= p
    ensures WriteFileEffect(d, f, p, bytes).outcome.Pass?
  {
  }

  /** A name `<a>/<c>` puts the topfile at `<a>/<c>/<a>/<c>.v`, inside `<a>/<c>/<a>`. With paths taken as
      plain strings (no `.`, `..` or '/' normalisation), no step creates that directory, unless `<a>` is
      `resources` and the directory is needed. So once `create_dirs` has succeeded, the run fails at the
      topfile with `NotFound`, leaving exactly the directories `create_dirs` made. */
  lemma NestedNameFailsAtTopFile(d: Disk, f: Faults, a: string, c: string, t: Target, b: Option<DevBoard>, x: Texts)
    requires WellFormed(d) && '/' !in c
    requires a != "resources" || !NeedsResourcesDir(t, b)
    requires CreateDirsEffect(d, f, a + "/" + c, t, b).outcome.Pass?
    ensures var name := a + "/" + c;
            && RunWith(d, f, name, t, b, x) == Effect(Fail(Io(NotFound)), CreateDirsEffect(d, f, name, t, b).disk)
            && name in RunWith(d, f, name, t, b, x).disk.dirs
  {
    var name := a + "/" + c;
    var s1 := CreateDirsEffect(d, f, name, t, b);
    var q := name + "/" + a;
    assert '/' !in c + ".v" by {
      forall i | 0 <= i < |c + ".v"| ensures (c + ".v")[i] != '/' {
        if i < |c| { assert (c + ".v")[i] == c[i]; }
      }
    }
    assert TopFilePath(name) == q + "/" + (c + ".v");
    ParentOfJoin(q, c + ".v");
    assert !Exists(d, name);
    assert name + "/" <= q;
    NothingBelowMissingDir(d, name, q);
    assert |q| > |name|;
    assert q == ResourcesDir(name) ==> a == "resources" by {
      if q == ResourcesDir(name) { assert q[|name| + 1..] == a && ResourcesDir(name)[|name| + 1..] == "resources"; }
    }
    assert q !in s1.disk.dirs;
  }

  /** Below a project directory that does not exist yet, none of the project's files exists either. */
  lemma FreshProjectFiles(d: Disk, name: string)
    requires WellFormed(d) && name != "" && !Exists(d, name)
    ensures !Exists(d, TopFilePath(name)) && !Exists(d, YosysScriptPath(name)) && !Exists(d, MakefilePath(name))
  {
    NothingBelowMissingDir(d, name, TopFilePath(name));
    NothingBelowMissingDir(d, name, YosysScriptPath(name));
    NothingBelowMissingDir(d, name, MakefilePath(name));
  }

  /** A run on a fresh plain name, with nothing inside the project directory refused or failing, succeeds. */
  lemma RunSucceeds(d: Disk, f: Faults, name: string, t: Target, b: Option<DevBoard>, x: Texts)
    requires WellFormed(d) && name != "" && '/' !in name && !Exists(d, name) && Unobstructed(f, name)
    ensures RunWith(d, f, name, t, b, x).outcome.Pass?
  {
    ProjectLayout(name, t, b);
    ProjectPathsDistinct(name, t, b);
    CreateDirsSucceeds(d, f, name, t, b);
    var T, Y, M := TopFilePath(name), YosysScriptPath(name), MakefilePath(name);
    assert T in ProjectPaths(name, t, b) && Y in ProjectPaths(name, t, b) && M in ProjectPaths(name, t, b);
    FreshProjectFiles(d, name);
    var s1 := CreateDirsEffect(d, f, name, t, b);
    ProjectFileWritable(s1.disk, f, name, name, T, x.top);
    var s2 := WriteFileEffect(s1.disk, f, T, x.top);
    ProjectFileWritable(s2.disk, f, name, name, Y, x.script);
    var s3 := WriteFileEffect(s2.disk, f, Y, x.script);
    ResourceFilesSucceed(d, s3.disk, f, name, t, b);
    var s4 := StepsBeforeMakefile(d, f, name, t, b, x);
    StepsBeforeMakefileFrame(d, f, name, t, b, x);
    ProjectFileWritable(s4.disk, f, name, name, M, x.makefile);
  }

  /** Once `create_dirs` has succeeded, `create_resource_files` succeeds on a disk whose directories are the
      ones it left, when nothing inside the project directory is refused: resource writes never meet a
      missing directory. */
  lemma ResourceFilesSucceed(d: Disk, d3: Disk, f: Faults, name: string, t: Target, b: Option<DevBoard>)
    requires WellFormed(d) && Unobstructed(f, name)
    requires CreateDirsEffect(d, f, name, t, b).outcome.Pass?
    requires d3.dirs == CreateDirsEffect(d, f, name, t, b).disk.dirs
    ensures ResourceFilesEffect(d3, f, name, t, b).outcome.Pass?
  {
    CatalogResources();
    match b
    case None =>
    case Some(ULX3S) =>
      var R := ResourcesDir(name);
      var rs := Files(ULX3S.AssociatedResources());
      ProjectPathsDistinct(name, t, b);
      BundledFilePathsValue(name, t, b);
      ConstraintFileParent(name);
      assert R !in d.dirs;
      forall p | p in ResourcePaths(R, rs)
        ensures p !in d3.dirs && p !in f.denied && p !in f.failingWrites
      {
        assert p in BundledFilePaths(name, t, b) && p in ProjectPaths(name, t, b);
        NothingBelowMissingDir(d, R, p);
      }
      assert SaveResourceToEffect(d3, f, R, t.AssociatedResources()) == Effect(Pass, d3);
      SaveAllSucceeds(d3, f, R, rs);
  }

  // ---------------------------------------------------------------------------------------
  // What a run writes

  /** A successful `run_new_command` leaves its generated texts in the three project files. */
  lemma RunWritesGeneratedTexts(d: Disk, f: Faults, name: string, t: Target, b: Option<DevBoard>)
    requires RunNewEffect(d, f, name, t, b).outcome.Pass?
    ensures var s := RunNewEffect(d, f, name, t, b).disk;
            && TopFilePath(name) in s.files && s.files[TopFilePath(name)] == Encode(TopFileText(name))
            && YosysScriptPath(name) in s.files && s.files[YosysScriptPath(name)] == Encode(YosysScriptText(name, t))
            && MakefilePath(name) in s.files && s.files[MakefilePath(name)] == Encode(MakefileText(name, t, b))
  {
    RunCreatesProject(d, f, name, t, b, GeneratedTexts(name, t, b));
  }

  /** With the board, a successful run's Makefile passes `--lpf resources/ulx3s_v20.lpf`, and the run wrote
      that file, next to the Makefile, with the board's bundled bytes. */
  lemma RunWritesNamedConstraintFile(d: Disk, f: Faults, name: string, t: Target)
    requires RunNewEffect(d, f, name, t, Some(ULX3S)).outcome.Pass?
    ensures var s := RunNewEffect(d, f, name, t, Some(ULX3S)).disk;
            && MakefilePath(name) in s.files
            && Contains(s.files[MakefilePath(name)], Encode("--lpf resources/ulx3s_v20.lpf"))
            && ResourcesDir(name) + "/" + "ulx3s_v20.lpf" in s.files
            && s.files[ResourcesDir(name) + "/" + "ulx3s_v20.lpf"] == Ulx3sV20Lpf
  {
    RunWritesGeneratedTexts(d, f, name, t, Some(ULX3S));
    MakefilePassesConstraintFile(name, t);
    BoardConstraintFileWritten(d, f, name, t, GeneratedTexts(name, t, Some(ULX3S)));
  }

  /** With the board, a successful run wrote the board's constraint file into `resources/`. */
  lemma BoardConstraintFileWritten(d: Disk, f: Faults, name: string, t: Target, x: Texts)
    requires RunWith(d, f, name, t, Some(ULX3S), x).outcome.Pass?
    ensures var s := RunWith(d, f, name, t, Some(ULX3S), x).disk;
            && ResourcesDir(name) + "/" + "ulx3s_v20.lpf" in s.files
            && s.files[ResourcesDir(name) + "/" + "ulx3s_v20.lpf"] == Ulx3sV20Lpf
  {
    RunCreatesProject(d, f, name, t, Some(ULX3S), x);
    CatalogResources();
    var lpf := Resource("ulx3s_v20.lpf", Ulx3sV20Lpf);
    assert lpf in Files(ULX3S.AssociatedResources());
    assert ResourcePath(ResourcesDir(name), lpf) == ResourcesDir(name) + "/" + "ulx3s_v20.lpf";
  }
}
