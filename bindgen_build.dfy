/**
 * `wasm_bindgen_build`: the path of the `.wasm` file cargo produced and the
 * argument vector with which the acquired `wasm-bindgen` is run on it.
 */
module BindgenBuild {
  import opened Wrappers
  import opened Interfaces

  const BUILD_CONTEXT := "Running the wasm-bindgen CLI"

  /** What the build reads from the crate's manifest: cargo's target directory and the crate name. */
  datatype CrateData = CrateData(targetDirectory: string, crateName: string)

  function ProfileDir(debug: bool): (r: string) {
    if debug then "debug" else "release"
  }

  /** `<target>/wasm32-unknown-unknown/<debug|release>/<crate>.wasm`. */
  function WasmPath(data: CrateData, debug: bool): (r: string) {
    Join(Join(Join(data.targetDirectory, "wasm32-unknown-unknown"), ProfileDir(debug)), data.crateName + ".wasm")
  }

  function DtsArg(disableDts: bool): (r: string) {
    if disableDts then "--no-typescript" else "--typescript"
  }

  /** The target flag; every target other than `nodejs` and `no-modules` means the browser. */
  function TargetArg(target: string): (r: string) {
    match target
    case "nodejs" => "--nodejs"
    case "no-modules" => "--no-modules"
    case _ => "--browser"
  }

  /**
   * The command `wasm_bindgen_build` runs, program first:
   * `<bindgen>/wasm-bindgen <wasm> --out-dir <out> <dts> <target> [--debug]`.
   */
  function BuildArgv(data: CrateData, bindgen: Download, outDir: string, disableDts: bool, target: string, debug: bool)
    : (argv: seq<string>)
    ensures |argv| == if debug then 7 else 6
    ensures argv[0] == Binary(bindgen, "wasm-bindgen") && argv[1] == WasmPath(data, debug)
    ensures argv[2] == "--out-dir" && argv[3] == outDir
    ensures argv[4] == "--no-typescript" <==> disableDts
    ensures argv[4] == "--typescript" <==> !disableDts
    ensures argv[5] == "--nodejs" <==> target == "nodejs"
    ensures argv[5] == "--no-modules" <==> target == "no-modules"
    ensures argv[5] == "--browser" <==> target != "nodejs" && target != "no-modules"
    ensures argv[|argv| - 1] == "--debug" <==> debug
  {
    [Binary(bindgen, "wasm-bindgen"), WasmPath(data, debug), "--out-dir", outDir, DtsArg(disableDts), TargetArg(target)]
      + (if debug then ["--debug"] else [])
  }

  /** The argument vector built up one `arg` at a time, as `wasm_bindgen_build` does. */
  method BuildCommand(data: CrateData, bindgen: Download, outDir: string, disableDts: bool, target: string, debug: bool)
    returns (cmd: seq<string>)
    ensures cmd == BuildArgv(data, bindgen, outDir, disableDts, target, debug)
  {
    var wasmPath := WasmPath(data, debug);
    var dtsArg := DtsArg(disableDts);
    var targetArg := TargetArg(target);
    cmd := [Binary(bindgen, "wasm-bindgen")];
    cmd := cmd + [wasmPath];
    cmd := cmd + ["--out-dir"];
    cmd := cmd + [outDir];
    cmd := cmd + [dtsArg];
    cmd := cmd + [targetArg];
    if debug {
      cmd := cmd + ["--debug"];
    }
  }

  /** `wasm_bindgen_build`: run the command once; its failure is the error, with context. `run` stands for `child::run`. */
  method WasmBindgenBuild(data: CrateData, bindgen: Download, outDir: string, disableDts: bool, target: string, debug: bool,
                          run: seq<string> -> RunOutcome)
    returns (r: Result<(), Error>, events: seq<Event>)
    ensures events == [Spawn(BuildArgv(data, bindgen, outDir, disableDts, target, debug))]
    ensures r.Ok? <==> run(BuildArgv(data, bindgen, outDir, disableDts, target, debug)).Exited?
    ensures r.Err? ==> r.error == CommandFailed(BUILD_CONTEXT)
  {
    var cmd := BuildCommand(data, bindgen, outDir, disableDts, target, debug);
    events := [Spawn(cmd)];
    if run(cmd).RunFailed? {
      return Err(CommandFailed(BUILD_CONTEXT)), events;
    }
    r := Ok(());
  }

  // ---------------------------------------------------------------------
  // Reading the vector back

  datatype TargetMode = Browser | NodeJs | NoModules

  /** The mode a target string selects. */
  function TargetModeOf(target: string): (r: TargetMode) {
    if target == "nodejs" then NodeJs else if target == "no-modules" then NoModules else Browser
  }

  /** What a `wasm-bindgen` invocation asks for. */
  datatype Invocation = Invocation(
    program: string, input: string, outDir: string, typescript: bool, mode: TargetMode, debug: bool)

  /** Reads an argument vector of the shape `wasm_bindgen_build` produces; anything else is `None`. */
  function ParseInvocation(argv: seq<string>): (r: Option<Invocation>) {
    if !(|argv| == 6 || (|argv| == 7 && argv[6] == "--debug")) || argv[2] != "--out-dir" then None
    else
      var typescript :=
        if argv[4] == "--typescript" then Some(true) else if argv[4] == "--no-typescript" then Some(false) else None;
      var mode :=
        if argv[5] == "--browser" then Some(Browser)
        else if argv[5] == "--nodejs" then Some(NodeJs)
        else if argv[5] == "--no-modules" then Some(NoModules)
        else None;
      if typescript.None? || mode.None? then None
      else Some(Invocation(argv[0], argv[1], argv[3], typescript.value, mode.value, |argv| == 7))
  }

  /** The vector says exactly what was asked: reading it back gives every input, with the target reduced to its mode. */
  lemma BuildArgvRoundTrip(data: CrateData, bindgen: Download, outDir: string, disableDts: bool, target: string, debug: bool)
    ensures ParseInvocation(BuildArgv(data, bindgen, outDir, disableDts, target, debug))
         == Some(Invocation(Binary(bindgen, "wasm-bindgen"), WasmPath(data, debug), outDir, !disableDts, TargetModeOf(target), debug))
  {
  }

  /** The input is the `.wasm` of the profile the `--debug` flag names: two builds with the same input agree on the flag. */
  lemma WasmPathProfile(data: CrateData, debug1: bool, debug2: bool)
    requires WasmPath(data, debug1) == WasmPath(data, debug2)
    ensures debug1 == debug2
  {
    var base := Join(data.targetDirectory, "wasm32-unknown-unknown");
    var p1, p2 := WasmPath(data, debug1), WasmPath(data, debug2);
    assert |p1| == |base| + 1 + |ProfileDir(debug1)| + 1 + |data.crateName| + 5;
    assert |p2| == |base| + 1 + |ProfileDir(debug2)| + 1 + |data.crateName| + 5;
  }
}
