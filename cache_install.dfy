/**
 * Installing `wasm-bindgen` into the binary cache: the `cargo install`
 * staging protocol (`cargo_install_wasm_bindgen`) and the three-step
 * acquisition pipeline (`install_wasm_bindgen`) built on it.
 *
 * The cache root is a `Cache` object whose `dirs` field is the set of
 * directory names directly under the root. Subprocesses, `which`, the
 * binary cache's download and the success of the filesystem calls are
 * oracles collected in an `Env`.
 */
module CacheInstall {
  import opened Wrappers
  import opened Target
  import opened Interfaces
  import opened Prebuilt
  import opened VersionProbe

  const CARGO_INSTALL_CONTEXT := "Installing wasm-bindgen with cargo"

  /** The cache directory that holds a `cargo install` of `version`. */
  function CargoInstallDirName(version: string): (r: string) {
    "wasm-bindgen-cargo-install-" + version
  }

  /** The hidden sibling that `cargo install` writes into before it is renamed. */
  function StagingDirName(version: string): (r: string) {
    "." + CargoInstallDirName(version)
  }

  /** `cargo install --force wasm-bindgen-cli --version <version> --root <root>`. */
  function CargoInstallCommand(version: string, root: string): (r: seq<string>) {
    ["cargo", "install", "--force", "wasm-bindgen-cli", "--version", version, "--root", root]
  }

  /** Whether `remove_dir_all`, `create_dir_all` and `rename` take effect. */
  datatype FsOutcomes = FsOutcomes(removeOk: bool, createOk: bool, renameOk: bool)

  /** The oracles of one pipeline run: the host, `which`, `child::run`, `Cache::download` and the filesystem. */
  datatype Env = Env(
    host: Host,
    which: string -> Option<BinaryPath>,
    run: seq<string> -> RunOutcome,
    fetch: FetchRequest -> FetchOutcome,
    fs: FsOutcomes)

  /** The step of `install_wasm_bindgen` whose outcome is returned. */
  datatype Strategy = GlobalReuse | PrebuiltDownload | CargoInstall

  /** A result together with the cache directories afterwards and the external effects on the way. */
  datatype Installed = Installed(result: Result<Download, Error>, dirs: set<string>, events: seq<Event>)

  /**
   * What `cargo_install_wasm_bindgen` does with a cache whose root holds `dirs`:
   * reuse an existing install; refuse without permission; otherwise clear and
   * recreate the staging directory, run cargo into it, and rename it to the
   * install directory.
   */
  function CargoInstallOutcome(
    root: string, dirs: set<string>, version: string, installPermitted: bool,
    fs: FsOutcomes, run: seq<string> -> RunOutcome): (out: Installed)
  {
    var dest := CargoInstallDirName(version);
    var tmp := StagingDirName(version);
    if dest in dirs then
      Installed(Ok(At(Join(root, dest))), dirs, [])
    else if !installPermitted then
      Installed(Err(NotInstalled(version)), dirs, [])
    else
      var cleared := if fs.removeOk then dirs - {tmp} else dirs;
      if !fs.createOk then
        Installed(Err(IoFailed(CreateDir)), cleared, [])
      else
        var staged := cleared + {tmp};
        var cmd := CargoInstallCommand(version, Join(root, tmp));
        if run(cmd).RunFailed? then
          Installed(Err(CommandFailed(CARGO_INSTALL_CONTEXT)), staged, [Spawn(cmd)])
        else if !fs.renameOk then
          Installed(Err(IoFailed(Rename)), staged, [Spawn(cmd)])
        else
          Installed(Ok(At(Join(root, dest))), staged - {tmp} + {dest}, [Spawn(cmd)])
  }

  lemma StagingIsNotDestination(version: string)
    ensures StagingDirName(version) != CargoInstallDirName(version)
  {
    assert StagingDirName(version)[0] == '.' && CargoInstallDirName(version)[0] == 'w';
  }

  /** An existing install is returned whatever the permission, with no command run and nothing changed. */
  lemma CargoInstallReuses(root: string, dirs: set<string>, version: string, installPermitted: bool,
                           fs: FsOutcomes, run: seq<string> -> RunOutcome)
    requires CargoInstallDirName(version) in dirs
    ensures CargoInstallOutcome(root, dirs, version, installPermitted, fs, run)
         == Installed(Ok(At(Join(root, CargoInstallDirName(version)))), dirs, [])
  {
  }

  /** Without an install and without permission the result is "not installed", with no command run and nothing changed. */
  lemma CargoInstallNeedsPermission(root: string, dirs: set<string>, version: string,
                                    fs: FsOutcomes, run: seq<string> -> RunOutcome)
    requires CargoInstallDirName(version) !in dirs
    ensures CargoInstallOutcome(root, dirs, version, false, fs, run) == Installed(Err(NotInstalled(version)), dirs, [])
  {
  }

  /**
   * The install directory appears only through the rename after cargo
   * succeeded: if it was absent and is present afterwards, cargo ran exactly
   * once, with the staging directory as its root, and succeeded, and the
   * rename took effect.
   */
  lemma DestinationOnlyAfterInstall(root: string, dirs: set<string>, version: string, installPermitted: bool,
                                    fs: FsOutcomes, run: seq<string> -> RunOutcome)
    requires CargoInstallDirName(version) !in dirs
    ensures var out := CargoInstallOutcome(root, dirs, version, installPermitted, fs, run);
      var cmd := CargoInstallCommand(version, Join(root, StagingDirName(version)));
      (CargoInstallDirName(version) in out.dirs)
        <==> (installPermitted && fs.createOk && out.events == [Spawn(cmd)] && run(cmd).Exited? && fs.renameOk)
  {
    StagingIsNotDestination(version);
  }

  /** A successful result names the install directory, and that directory exists afterwards. */
  lemma CargoInstallHandleExists(root: string, dirs: set<string>, version: string, installPermitted: bool,
                                 fs: FsOutcomes, run: seq<string> -> RunOutcome)
    ensures var out := CargoInstallOutcome(root, dirs, version, installPermitted, fs, run);
      out.result.Ok? ==>
        out.result.value == At(Join(root, CargoInstallDirName(version))) && CargoInstallDirName(version) in out.dirs
  {
  }

  /**
   * Only the staging and install directories change; after a fresh install
   * the staging directory is gone; and a failed attempt never creates the
   * install directory.
   */
  lemma CargoInstallFrame(root: string, dirs: set<string>, version: string, installPermitted: bool,
                          fs: FsOutcomes, run: seq<string> -> RunOutcome)
    ensures var out := CargoInstallOutcome(root, dirs, version, installPermitted, fs, run);
      var dest, tmp := CargoInstallDirName(version), StagingDirName(version);
      && out.dirs - {dest, tmp} == dirs - {dest, tmp}
      && (dest !in dirs && out.result.Ok? ==> tmp !in out.dirs)
      && (out.result.Err? ==> (dest in out.dirs <==> dest in dirs))
  {
    StagingIsNotDestination(version);
  }

  /** The errors of `cargo_install_wasm_bindgen`; a download error is never among them. */
  lemma CargoInstallErrors(root: string, dirs: set<string>, version: string, installPermitted: bool,
                           fs: FsOutcomes, run: seq<string> -> RunOutcome)
    ensures var out := CargoInstallOutcome(root, dirs, version, installPermitted, fs, run);
      out.result.Err? ==>
        || (out.result.error == NotInstalled(version) && !installPermitted && out.events == [])
        || out.result.error == IoFailed(CreateDir)
        || out.result.error == CommandFailed(CARGO_INSTALL_CONTEXT)
        || out.result.error == IoFailed(Rename)
  {
  }

  /** The texts of the errors with a fixed message: the missing permission and the failed cargo run. */
  lemma CargoInstallMessages(root: string, dirs: set<string>, version: string, installPermitted: bool,
                             fs: FsOutcomes, run: seq<string> -> RunOutcome)
    ensures var out := CargoInstallOutcome(root, dirs, version, installPermitted, fs, run);
      && (out.result.Err? && !installPermitted ==>
            Message(out.result.error) == Some("wasm-bindgen v" + version + " is not installed!"))
      && (out.result.Err? && out.result.error.CommandFailed? ==>
            Message(out.result.error) == Some("Installing wasm-bindgen with cargo"))
  {
  }

  /** A second install after a successful one returns the same handle, runs nothing and changes nothing. */
  lemma CargoInstallIdempotent(root: string, dirs: set<string>, version: string, installPermitted: bool,
                               fs: FsOutcomes, run: seq<string> -> RunOutcome,
                               installPermitted': bool, fs': FsOutcomes, run': seq<string> -> RunOutcome)
    requires CargoInstallOutcome(root, dirs, version, installPermitted, fs, run).result.Ok?
    ensures var out := CargoInstallOutcome(root, dirs, version, installPermitted, fs, run);
      CargoInstallOutcome(root, out.dirs, version, installPermitted', fs', run') == Installed(out.result, out.dirs, [])
  {
    CargoInstallHandleExists(root, dirs, version, installPermitted, fs, run);
  }

  /** The probe `install_wasm_bindgen` runs first: of the `wasm-bindgen` that `which` finds, if any. */
  function GlobalProbe(env: Env): (r: seq<Event>) {
    match env.which("wasm-bindgen")
    case None => []
    case Some(path) => [Spawn(ProbeCommand(FullPath(path)))]
  }

  /** `which` finds a `wasm-bindgen` and its version check passes. */
  predicate GlobalHit(env: Env, version: string) {
    env.which("wasm-bindgen").Some?
    && WasmBindgenVersionCheck(FullPath(env.which("wasm-bindgen").value), version, env.run)
  }

  class Cache {
    /** The cache root directory. */
    const root: string
    /** The names of the directories directly under the root. */
    var dirs: set<string>

    constructor (root: string, dirs: set<string>)
      ensures this.root == root && this.dirs == dirs
    {
      this.root := root;
      this.dirs := dirs;
    }

    predicate Exists(name: string)
      reads this
    {
      name in dirs
    }

    /** `fs::remove_dir_all`, whose error the caller ignores: when it fails, the directory stays. */
    method RemoveDirAll(name: string, ok: bool)
      modifies this
      ensures dirs == if ok then old(dirs) - {name} else old(dirs)
    {
      if ok {
        dirs := dirs - {name};
      }
    }

    /** `fs::create_dir_all`. */
    method CreateDirAll(name: string, ok: bool) returns (created: bool)
      modifies this
      ensures created == ok
      ensures dirs == if ok then old(dirs) + {name} else old(dirs)
    {
      created := ok;
      if ok {
        dirs := dirs + {name};
      }
    }

    /** `fs::rename` of one directory under the root to another; it fails when the source is missing. */
    method RenameDir(from: string, to: string, ok: bool) returns (renamed: bool)
      modifies this
      ensures renamed == (ok && from in old(dirs))
      ensures dirs == if renamed then old(dirs) - {from} + {to} else old(dirs)
    {
      renamed := ok && from in dirs;
      if renamed {
        dirs := dirs - {from} + {to};
      }
    }

    /** `cargo_install_wasm_bindgen`, step by step. */
    method CargoInstallWasmBindgen(version: string, installPermitted: bool, fs: FsOutcomes, run: seq<string> -> RunOutcome)
      returns (r: Result<Download, Error>, events: seq<Event>)
      modifies this
      ensures Installed(r, dirs, events) == CargoInstallOutcome(root, old(dirs), version, installPermitted, fs, run)
    {
      var dirname := CargoInstallDirName(version);
      var destination := Join(root, dirname);
      if Exists(dirname) {
        return Ok(At(destination)), [];
      }
      if !installPermitted {
        return Err(NotInstalled(version)), [];
      }
      var tmpName := "." + dirname;
      var tmp := Join(root, tmpName);
      RemoveDirAll(tmpName, fs.removeOk);
      var created := CreateDirAll(tmpName, fs.createOk);
      if !created {
        return Err(IoFailed(CreateDir)), [];
      }
      var cmd := ["cargo"];
      cmd := cmd + ["install"];
      cmd := cmd + ["--force"];
      cmd := cmd + ["wasm-bindgen-cli"];
      cmd := cmd + ["--version"];
      cmd := cmd + [version];
      cmd := cmd + ["--root"];
      cmd := cmd + [tmp];
      assert cmd == CargoInstallCommand(version, tmp);
      events := [Spawn(cmd)];
      if run(cmd).RunFailed? {
        r := Err(CommandFailed(CARGO_INSTALL_CONTEXT));
        return;
      }
      var renamed := RenameDir(tmpName, dirname, fs.renameOk);
      if !renamed {
        r := Err(IoFailed(Rename));
        return;
      }
      r := Ok(At(destination));
    }

    /**
     * `install_wasm_bindgen`: a global `wasm-bindgen` of the right version,
     * else the prebuilt archive, else `cargo install`; the first success wins
     * and a failed download only leads on to cargo.
     */
    method InstallWasmBindgen(version: string, installPermitted: bool, env: Env)
      returns (r: Result<Download, Error>, via: Strategy, events: seq<Event>)
      modifies this
      ensures via == GlobalReuse <==> GlobalHit(env, version)
      ensures via == PrebuiltDownload <==>
        !GlobalHit(env, version) && DownloadPrebuilt(env.host, version, installPermitted, env.fetch).result.Ok?
      ensures via != CargoInstall ==> r.Ok? && dirs == old(dirs)
      ensures GlobalHit(env, version) ==>
        r == Ok(At(env.which("wasm-bindgen").value.dir)) && events == GlobalProbe(env) && dirs == old(dirs)
      ensures !GlobalHit(env, version) ==>
        var dl := DownloadPrebuilt(env.host, version, installPermitted, env.fetch);
        var cargo := CargoInstallOutcome(root, old(dirs), version, installPermitted, env.fs, env.run);
        if dl.result.Ok? then
          r == dl.result && events == GlobalProbe(env) + dl.events && dirs == old(dirs)
        else
          r == cargo.result && dirs == cargo.dirs && events == GlobalProbe(env) + dl.events + cargo.events
      ensures !Supported(env.host) ==> NoFetch(events)
      ensures r.Err? ==> !r.error.DownloadFailed? && r.error != NoPrebuiltForPlatform
    {
      events := [];
      var found := env.which("wasm-bindgen");
      if found.Some? {
        var probe := ProbeCommand(FullPath(found.value));
        events := events + [Spawn(probe)];
        if WasmBindgenVersionCheck(FullPath(found.value), version, env.run) {
          r, via := Ok(At(found.value.dir)), GlobalReuse;
          return;
        }
      }
      var dl := DownloadPrebuilt(env.host, version, installPermitted, env.fetch);
      events := events + dl.events;
      if dl.result.Ok? {
        r, via := dl.result, PrebuiltDownload;
        return;
      }
      var cargoEvents;
      CargoInstallErrors(root, dirs, version, installPermitted, env.fs, env.run);
      r, cargoEvents := CargoInstallWasmBindgen(version, installPermitted, env.fs, env.run);
      events := events + cargoEvents;
      via := CargoInstall;
    }
  }
}
