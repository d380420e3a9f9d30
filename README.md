# hdlman in Dafny: the hardware catalog and `hdlman new`

This project models the core of hdlman, a command-line tool that scaffolds FPGA projects. The model covers two parts.

* **The hardware catalog** (`hardware.dfy`, module `Hardware`):
  - the closed enums `Target` (the Lattice ECP5 85k chip) and `DevBoard` (the ULX3S board);
  - their identifier codec: `as_ref` renders an identifier, and `from_str` parses one with a loop over the variants and an early return;
  - their bundled resources (`associated_resources`);
  - the default `save_resource_to`, which writes each resource into a directory and stops at the first I/O error;
  - the registry constants that list the display names.
* **The project materializer** (`new_command.dfy`, module `NewCommand`): `run_new_command` runs five steps in order and stops at the first error.
  1. `create_dirs`: refuses an existing path. It creates `<name>` and, only when some component bundles files, `<name>/resources`.
  2. `create_top_file` writes the topfile.
  3. `create_yosys_script` writes the yosys script.
  4. `create_resource_files` writes the bundled files.
  5. `create_makefile` writes the Makefile.

  The chosen toolchain fragments are substituted into the generated texts:
  - the synthesis command `synth_ecp5`;
  - the place-and-route call `nextpnr-ecp5 --85k --json build/<name>.json`;
  - the constraint-file argument `--lpf resources/ulx3s_v20.lpf`, present only with a board.

The file system is modelled at two levels.

* **Values.** A `Disk` value holds a set of directory paths and a map from file paths to bytes. An environment `Faults` names the paths whose creation is refused and the files whose write fails.
* **Step functions.** Pure step functions (`CreateDirEffect`, `CreateFileEffect`, `WriteAllEffect`) give the outcome and the new disk of `create_dir`, `File::create` and `write_all`.
* **The class.** Class `FileSystem.FileSystem` holds the mutable `dirs` and `files`. Its methods are the system calls.
* **How they connect.**
  - Every imperative step (`CreateDirs`, `CreateTopFile`, …, `RunNewCommand`, `SaveResourceTo`) is a module-level method. It takes the `FileSystem` object and changes it.
  - Each such method `ensures` that it changes the state exactly as its step function says.
  - `Target.FromStr` and `DevBoard.FromStr` are static methods that touch no file system. Each returns what `Parse` computes.
  - The lemmas about the step functions then state what a run creates, what it leaves alone, and when it succeeds.

`RunNewEffect` is `RunWith` applied to the generated texts. Most run-level lemmas are stated over `RunWith` for arbitrary texts, so they also hold for any change to the template bodies. `RunWritesGeneratedTexts` and `RunWritesNamedConstraintFile` then specialise them to the generated texts.

Strings are `seq<char>`. `Bytes.Encode` is UTF-8, modelling `str::as_bytes`.

## Model

| member | source | states |
|---|---|---|
| Hardware.FirstMatch | src/hardware.rs:83-93 | An `Ok` holds the first variant in iteration order whose rendering equals the input; no earlier variant matches. An `Err` carries the input unchanged, and then no variant renders to it. |
| Hardware.FindFirst | src/hardware.rs:84-92 | The loop with its early return computes exactly `FirstMatch`. |
| Hardware.FirstMatchRoundTrip | src/hardware.rs:84-92 | When the rendering is injective, parsing the rendering of a listed variant returns that variant. |
| Hardware.Target.AsRef | src/hardware.rs:67-73 | No contract of its own: `ECP5_85k` renders as `ecp5-85k`. `TargetNamesDistinct`, `TargetRoundTrip` and `CodecExamples` state its properties. |
| Hardware.Target.AssociatedResources | src/hardware.rs:59-65 | Every bundled file name is a plain file name: nonempty, with no '/'. |
| Hardware.Target.Parse | src/hardware.rs:80-94 | An `Ok` renders back to the input. An `Err` has `received` equal to the input, and then no target renders to it. |
| Hardware.Target.FromStr | src/hardware.rs:83-93 | The `from_str` loop returns `Target.Parse(s)`. |
| Hardware.DevBoard.AsRef | src/hardware.rs:112-118 | No contract of its own: `ULX3S` renders as `ulx3s`. `DevBoardNamesDistinct`, `DevBoardRoundTrip` and `CodecExamples` state its properties. |
| Hardware.DevBoard.AssociatedResources | src/hardware.rs:101-110 | Every bundled file name is a plain file name. |
| Hardware.DevBoard.Parse | src/hardware.rs:120-134 | An `Ok` renders back to the input. An `Err` has `received` equal to the input, and then no board renders to it. |
| Hardware.DevBoard.FromStr | src/hardware.rs:123-133 | The `from_str` loop returns `DevBoard.Parse(s)`. |
| Hardware.TargetNamesDistinct | src/hardware.rs:67-73 | `as_ref` is injective on `Target`. |
| Hardware.TargetRoundTrip | src/hardware.rs:67-94 | `from_str(as_ref(t)) == Ok(t)` for every target. |
| Hardware.DevBoardNamesDistinct | src/hardware.rs:112-118 | `as_ref` is injective on `DevBoard`. |
| Hardware.DevBoardRoundTrip | src/hardware.rs:112-134 | `from_str(as_ref(b)) == Ok(b)` for every board. |
| Hardware.TargetParseExact | src/hardware.rs:83-93 | Parsing succeeds if and only if the input is some target's identifier. Every other input gives `Err(StrParseError(s))`. |
| Hardware.DevBoardParseExact | src/hardware.rs:123-133 | Parsing succeeds if and only if the input is some board's identifier. Every other input gives `Err(StrParseError(s))`. |
| Hardware.CodecExamples | src/hardware.rs:67-134 | "ecp5-85k" parses to `ECP5_85k` and "ulx3s" to `ULX3S`. "not-a-real-chip", "ECP5-85k" and "ULX3S" are rejected with the input echoed, so matching is case-sensitive. |
| Hardware.IterListsEveryVariant | src/hardware.rs:54-57 | The derived iteration lists every variant, and each enum has exactly one. |
| Hardware.CatalogResources | src/hardware.rs:59-110 | `ECP5_85k` bundles nothing. `ULX3S` bundles exactly one resource, `ulx3s_v20.lpf`. |
| Hardware.RegistryMatchesCodec | src/hardware.rs:6-20 | The registry constants `SupportedTargets` and `SupportedDevBoards` list the variants in iteration order under their codec identifiers. So every name they offer parses to its variant. |
| Hardware.ResourcePath | src/hardware.rs:29-34 | No contract of its own: `dir/<filename>`. `ResourcePathInjective`, `SaveAllWritesEach` and `ProjectLayout` state its properties. |
| Hardware.SaveAllEffect | src/hardware.rs:28-36 | The resource loop keeps the directories and removes no file. It touches only `dir/<filename>` of the listed resources and keeps the disk well formed. |
| Hardware.FailsAt | src/hardware.rs:28-36 | No contract of its own. It says the loop failed at resource `k`: the resources before `k` were all saved, `k`'s create or write failed, and the whole loop returns exactly that failure. |
| Hardware.SaveAllStopsAtFirstError | src/hardware.rs:28-36 | A failing loop failed at some resource `k` in the sense of `FailsAt`. Every resource before `k` was saved, and the loop's outcome and disk are exactly those of `k`'s failed create or write, so nothing after `k` runs. |
| Hardware.SaveAllWritesEach | src/hardware.rs:28-36 | On success, with distinct file names, each `dir/<filename>` holds that resource's bytes verbatim. |
| Hardware.SaveAllSucceeds | src/hardware.rs:28-36 | The loop succeeds when `dir` exists, every file name is plain (nonempty, without '/'), and no resource path is a directory, refused, or failing. |
| Hardware.SaveResourceToEffect | src/hardware.rs:25-39 | `None` leaves the disk unchanged with success. Otherwise only the resource paths change, the directories stay, no file disappears, and well-formedness is kept. |
| Hardware.SaveResourceTo | src/hardware.rs:25-39 | The method changes the file system exactly as `SaveResourceToEffect` says and keeps it valid. |
| Bytes.Encode | src/new_command.rs:78-80 | `as_bytes` yields between one and four bytes per character. |
| Bytes.EncodeContains | src/new_command.rs:78-80 | A fragment of a text is still a fragment after `as_bytes`. |
| FileSystem.CreateDirEffect | src/new_command.rs:27 | `create_dir` succeeds if and only if the path is nonempty, its parent exists, nothing is there, and creation is not refused. Success adds exactly that directory; failure changes nothing; files never change. |
| FileSystem.CreateFileEffect | src/hardware.rs:29-34 | `File::create` succeeds if and only if the parent exists, the path is not a directory, and creation is not refused. Success leaves the file empty, truncated or new, and changes nothing else. |
| FileSystem.WriteAllEffect | src/hardware.rs:35 | `write_all` appends the bytes unless the write fails; a failure leaves the file as it was. |
| FileSystem.WriteFileEffect | src/hardware.rs:29-35 | Create then write. Success holds exactly the bytes. A failure either leaves the files as they were or leaves the path an empty file, new or truncated. No other path changes and no file disappears. |
| FileSystem.FileSystem.PathExists | src/new_command.rs:23 | `Path::exists` is true exactly when a directory or a file is at the path. |
| FileSystem.FileSystem.CreateDir | src/new_command.rs:27 | The state changes exactly as `CreateDirEffect` says. |
| FileSystem.FileSystem.CreateFile | src/new_command.rs:39 | The state changes exactly as `CreateFileEffect` says. |
| FileSystem.FileSystem.WriteAll | src/new_command.rs:43 | The state changes exactly as `WriteAllEffect` says. |
| NewCommand.Lift | src/new_command.rs:11-15 | `?` passes an I/O error on unchanged and keeps the disk. |
| NewCommand.CreateDirsEffect | src/new_command.rs:18-36 | The defining properties of `create_dirs`. It fails with `DirectoryAlreadyExists(name)` if and only if the path exists, and then changes nothing. Files never change, and only `<name>` and `<name>/resources` may be added. `resources` is added only when needed, and on success it is present whenever it is needed. It keeps the disk well formed. |
| NewCommand.ResourcesDir | src/new_command.rs:31 | No contract of its own: `<name>/resources`, as in `create_dirs` and again in `create_resource_files` (src/new_command.rs:106). `ProjectPathsDistinct` and `ProjectLayout` state where it sits. |
| NewCommand.TopFilePath | src/new_command.rs:39 | No contract of its own: `<name>/<name>.v`. `ProjectPathsDistinct` and `ProjectLayout` state where it sits. |
| NewCommand.YosysScriptPath | src/new_command.rs:88 | No contract of its own: `<name>/<name>.ys`. `ProjectPathsDistinct` and `ProjectLayout` state where it sits. |
| NewCommand.MakefilePath | src/new_command.rs:120 | No contract of its own: `<name>/Makefile`. `ProjectPathsDistinct` and `ProjectLayout` state where it sits. |
| NewCommand.TopFileText | src/new_command.rs:43-79 | No contract of its own: the topfile text, with the simulation module named after the project and the fixed body abbreviated. `RunWritesGeneratedTexts` states that a successful run writes it. |
| NewCommand.YosysScriptText | src/new_command.rs:90-96 | No contract of its own: the full script text. `YosysScriptFragments` states its two lines. |
| NewCommand.MakefileHead | src/new_command.rs:121-192 | No contract of its own: the Makefile up to the constraint-file slot. `MakefileFragments` states that it holds `TOPMOD  := <name>` and the place-and-route call. |
| NewCommand.MakefileText | src/new_command.rs:121-209 | No contract of its own: the head, the constraint-file argument, then the tail. `MakefileFragments`, `MakefilePassesConstraintFile` and `MakefileWithoutBoard` state its properties. |
| NewCommand.GeneratedTexts | src/new_command.rs:38-209 | No contract of its own: the UTF-8 bytes of the three texts for one project. `RunNewEffect` runs with them, and `RunWritesGeneratedTexts` states that a successful run writes them. |
| NewCommand.SynthCommand | src/new_command.rs:85-87 | No contract of its own. `YosysScriptFragments` states that it is `synth_ecp5` for ECP5 and that the script runs it. |
| NewCommand.NextpnrCommand | src/new_command.rs:202-204 | No contract of its own. `MakefileFragments` states its ECP5 value and that the Makefile contains it. |
| NewCommand.LpfArg | src/new_command.rs:205-208 | The constraint-file argument is empty if and only if no board is given. `LpfArgNamesBoardFile` states which file it names. |
| NewCommand.NeedsResourcesDir | src/new_command.rs:28-30 | No contract of its own. It is the condition of `create_dirs` for making `resources`. `CreateDirsEffect` and `ResourcesDirIffNeeded` state its role. |
| NewCommand.TopFileEffect | src/new_command.rs:38-82 | `create_top_file` keeps the directories and removes no file. On success `<name>/<name>.v` holds exactly the UTF-8 bytes of the topfile text. No other path changes. |
| NewCommand.YosysScriptEffect | src/new_command.rs:84-99 | `create_yosys_script` keeps the directories and removes no file. On success `<name>/<name>.ys` holds exactly the UTF-8 bytes of the script text. No other path changes. |
| NewCommand.ResourceFilesEffect | src/new_command.rs:101-113 | `create_resource_files` keeps the directories, removes no file, touches only the bundled files of the chip and the board, and keeps the disk well formed. `ResourceFilesSucceed` states when it succeeds. |
| NewCommand.MakefileEffect | src/new_command.rs:115-210 | `create_makefile` keeps the directories and removes no file. On success `<name>/Makefile` holds exactly the UTF-8 bytes of the Makefile text. No other path changes. |
| NewCommand.StepsBeforeMakefile | src/new_command.rs:11-14 | No contract of its own: the first four steps with given texts, ending at the first failure. `StepsBeforeMakefileFrame` and `StepsBeforeMakefileContents` state its properties. |
| NewCommand.RunWith | src/new_command.rs:6-16 | No contract of its own: the five steps with given texts, ending at the first failure. `RunFrame`, `RunRejectsExistingPath`, `SecondRunRejected`, `RunCreatesProject`, `RunOrder` and `RunSucceeds` state its properties. |
| NewCommand.RunNewEffect | src/new_command.rs:6-16 | No contract of its own: `RunWith` on the generated texts. `RunNewCommand` is proved to change the file system as it says. `RunWritesGeneratedTexts` and `RunWritesNamedConstraintFile` state what it writes. |
| NewCommand.CreateDirs | src/new_command.rs:18-36 | The method changes the file system exactly as `CreateDirsEffect` says. |
| NewCommand.CreateTopFile | src/new_command.rs:38-82 | The method writes `<name>/<name>.v` exactly as `TopFileEffect` says. |
| NewCommand.CreateYosysScript | src/new_command.rs:84-99 | The method writes `<name>/<name>.ys` exactly as `YosysScriptEffect` says. |
| NewCommand.CreateResourceFiles | src/new_command.rs:101-113 | The method saves the chip's resources, then the board's, into `<name>/resources`, exactly as `ResourceFilesEffect` says. |
| NewCommand.CreateMakefile | src/new_command.rs:115-210 | The method writes `<name>/Makefile` exactly as `MakefileEffect` says. |
| NewCommand.RunNewCommand | src/new_command.rs:6-16 | The five steps change the file system exactly as `RunNewEffect` says. |
| NewCommand.YosysScriptFragments | src/new_command.rs:84-98 | The script contains `read_verilog <name>.v` and `<synth> -noccu2 -nomux -nodram -json build/<name>.json`. The synth command for ECP5 is `synth_ecp5`. |
| NewCommand.MakefileFragments | src/new_command.rs:121-204 | The Makefile contains `TOPMOD  := <name>` and the chip's place-and-route call. For ECP5 that call is `nextpnr-ecp5 --85k --json build/<name>.json \`. |
| NewCommand.MakefilePassesConstraintFile | src/new_command.rs:205-208 | With the ULX3S board the Makefile contains `--lpf resources/ulx3s_v20.lpf`. |
| NewCommand.MakefileWithoutBoard | src/new_command.rs:205-208 | Without a board the argument slot is empty. The board's Makefile is the board-less Makefile with exactly the argument inserted at one point. |
| NewCommand.LpfArgNamesBoardFile | src/new_command.rs:205-208 | Without a board the argument is empty. With a board it names `resources/<file>`, where `<file>` is the single file the board bundles. |
| NewCommand.ProjectPathsDistinct | src/new_command.rs:27-120 | `<name>`, `resources`, the topfile, the script, the Makefile and the bundled files are pairwise distinct paths, and all begin with `<name>`. |
| NewCommand.ProjectLayout | src/new_command.rs:27-120 | For a name without '/', each project path sits directly in `<name>`, and each bundled file directly in `<name>/resources`. |
| NewCommand.StepsBeforeMakefileFrame | src/new_command.rs:11-14 | The first four steps touch only the project's directories, topfile, script and bundled files. They remove nothing, and after `create_dirs` they leave the directories alone. |
| NewCommand.RunFrame | src/new_command.rs:6-16 | A run removes no directory or file, so a failed run leaves its partial tree. It touches no path outside the project, keeps the disk well formed, and once anything changed `<name>` exists. |
| NewCommand.RunRejectsExistingPath | src/new_command.rs:23-25 | A run fails with `DirectoryAlreadyExists(name)` if and only if the path exists, and then it creates nothing. |
| NewCommand.SecondRunRejected | src/new_command.rs:23-25 | After a run that succeeded or changed anything, a run with the same name is refused with the disk unchanged, whatever the chip, board and texts. |
| NewCommand.StepsBeforeMakefileContents | src/new_command.rs:11-14 | When the first four steps succeed, the topfile and the script hold their texts and every bundled file holds its bytes. |
| NewCommand.RunCreatesProject | src/new_command.rs:6-16 | On success: `<name>` exists, and `resources` exists when needed. The topfile, script and Makefile hold exactly their texts, and every bundled file its bytes. |
| NewCommand.RunOrder | src/new_command.rs:6-16 | The steps run in order and the first error ends the run. If the run produced a Makefile, the first four steps succeeded and every earlier file is complete. If it produced a script, the topfile is complete. |
| NewCommand.ScriptImpliesTopFile | src/new_command.rs:11-13 | Even when a later step fails, a script the run produced comes with a complete topfile. |
| NewCommand.ResourcesDirIffNeeded | src/new_command.rs:27-32 | On a fresh name, `resources` is created only when a component bundles files, and on success it exists whenever it is needed. So an ECP5 project without a board has none, and any ULX3S project has one. Bundled files imply it is needed. |
| NewCommand.NestedNameFailsAtTopFile | src/new_command.rs:11-12 | In the model's unnormalised paths: for a name `<a>/<c>` with `<c>` free of '/', once `create_dirs` has succeeded the run fails at the topfile step with `NotFound`. Its directory `<a>/<c>/<a>` does not exist, unless `<a>` is `resources` and that directory is needed. The disk is exactly the one `create_dirs` left, so `<name>` remains. |
| NewCommand.CreateDirsSucceeds | src/new_command.rs:26-32 | On a fresh plain name with nothing under it refused, `create_dirs` succeeds. It adds exactly `<name>` and, when needed, `resources`. |
| NewCommand.ResourceFilesSucceed | src/new_command.rs:101-113 | Take any name, a well-formed disk, and nothing under the name refused or failing. Once `create_dirs` has succeeded, writing the resources succeeds on any disk with the directories it left. They never hit a missing directory. |
| NewCommand.RunSucceeds | src/new_command.rs:6-16 | On a well-formed disk, a run succeeds when the name is fresh, nonempty and plain, and nothing under it is refused or failing. |
| NewCommand.RunWritesGeneratedTexts | src/new_command.rs:38-209 | A successful `run_new_command` writes the exact UTF-8 bytes of the modelled topfile, script and Makefile texts. |
| NewCommand.BoardConstraintFileWritten | src/new_command.rs:101-111 | With the board, a successful run wrote `<name>/resources/ulx3s_v20.lpf` holding the board's bytes. |
| NewCommand.RunWritesNamedConstraintFile | src/new_command.rs:205-208 | With the board, the Makefile of a successful run passes `--lpf resources/ulx3s_v20.lpf`. The file it names, next to the Makefile, was written with the board's bytes. |

## Left out

- `src/cli.rs` (argument wiring), `src/config.rs` (home-directory lookup, TOML decoding) and `src/main.rs` are not part of this model. `main.rs` only dispatches; its one rule is that the command-line argument takes precedence over the configured default.
- The literal template bodies are abbreviated. These are the blinky Verilog module and the Makefile's fixed recipe lines. Every substitution point of the `formatdoc!` templates is kept with the text around it. So is the closing line of four spaces that `formatdoc!` keeps in each of the three texts. No lemma depends on the fixed text. `RunWritesGeneratedTexts` speaks of the modelled texts: the yosys script is given in full, and the topfile and Makefile are abbreviated as described.
- The `include_bytes!` payload of `ulx3s_v20.lpf` is a short stand-in byte string. The model only claims that the file receives the bundled bytes verbatim.
- Colored terminal output is not modelled. The panic on an existing path is modelled as the distinct failure `DirectoryAlreadyExists(name)` rather than an unwinding panic.
- `std::io::Error` is modelled by its kind only, because the errors the code propagates carry no path.
- Real file-system semantics are reduced to the abstract `Disk`:
  - no permissions other than a set of refused paths;
  - no partial writes, since a failing `write_all` writes nothing;
  - no concurrency;
  - no normalisation of `.`, `..`, absolute paths, or repeated and trailing '/'. Every path is a plain string, so `blinky/` is a different path from `blinky`, and the model's outcome for such a name differs from the operating system's:
    - when `blinky` is absent, the model's `create_dir("blinky/")` fails at once with `NotFound`; the operating system creates `blinky`, and the run fails later at the topfile `blinky//blinky/.v`;
    - when `blinky` exists, the program refuses the run with `DirectoryAlreadyExists`, because `Path::exists("blinky/")` is true; the model instead adds a separate directory `blinky/` and fails at the topfile with `NotFound`;
  - the UTF-8 `expect` on directory names cannot fail, because paths are strings.
- NewCommand.MakefileWithoutBoard: the "only if" half of "the Makefile contains `--lpf resources/ulx3s_v20.lpf` if and only if the board is given" is stated over the argument slot. The board-less Makefile is the board Makefile with exactly that argument removed. A project name may itself contain the fragment, so the literal non-containment does not hold for every name.
- NewCommand.RunSucceeds: stated for names without '/'. For a name `<a>/<c>` (with `<c>` free of '/') the topfile goes to `<a>/<c>/<a>/<c>.v`. What follows holds in the model, which does not normalise paths:
  - no step creates the topfile's directory `<a>/<c>/<a>`, so once `create_dirs` has succeeded the run fails at the topfile step with `NotFound` and leaves `<a>/<c>` behind (`NestedNameFailsAtTopFile`);
  - the one exception is `<a>` = `resources` with a component that bundles files: there the topfile's directory is `<name>/resources`, which `create_dirs` made, and no success theorem is stated for that case.

  On a real operating system `<a>/<c>/<a>` can resolve to a directory that exists, and then the program behaves differently from the model:
  - `./blinky` succeeds, with the project in `blinky`, because `./blinky/./blinky.v` is `blinky/blinky.v`;
  - `/blinky` succeeds, with the project in `/blinky`, because `/blinky//blinky.v` is `/blinky/blinky.v`;
  - `../blinky` succeeds, but the topfile and the script land at `../blinky.v` and `../blinky.ys`, outside the project directory.

  The model predicts a failure at the topfile for all three.
