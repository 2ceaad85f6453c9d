/**
 * Whole-pipeline consequences of the contracts of `InstallWasmBindgen`:
 * a 64-bit Linux host whose prebuilt download works or fails, an
 * unsupported host without permission to install, a global binary that
 * reports another version, and re-running an install that succeeded.
 */
module Scenarios {
  import opened Wrappers
  import opened RustStr
  import opened Target
  import opened Interfaces
  import opened Prebuilt
  import opened VersionProbe
  import opened CacheInstall

  const VERSION := "0.2.74"
  const ROOT := "/cache"

  /** No binary on `$PATH`. */
  function NoGlobal(): (r: string -> Option<BinaryPath>) {
    (name: string) => None
  }

  /** Every subprocess succeeds with empty output. */
  function AllRunsSucceed(): (r: seq<string> -> RunOutcome) {
    (argv: seq<string>) => Exited("")
  }

  /** 64-bit Linux, nothing global, an empty cache: the prebuilt archive is downloaded and its directory returned. */
  method PrebuiltDownloadScenario(extracted: Download) returns (r: Result<Download, Error>, via: Strategy, events: seq<Event>)
    ensures r == Ok(extracted) && via == PrebuiltDownload
    ensures events == [Fetch(FetchRequest(true, "wasm-bindgen", ["wasm-bindgen", "wasm-bindgen-test-runner"],
                                          PrebuiltUrl(VERSION, Host(Linux, X86_64)).value))]
  {
    var request := PrebuiltRequest(true, PrebuiltUrl(VERSION, Host(Linux, X86_64)).value);
    var env := Env(Host(Linux, X86_64), NoGlobal(), AllRunsSucceed(),
                   (req: FetchRequest) => if req == request then Fetched(extracted) else FetchError("404"),
                   FsOutcomes(true, true, true));
    var cache := new Cache(ROOT, {});
    r, via, events := cache.InstallWasmBindgen(VERSION, true, env);
  }

  /** The same, but the download fails: cargo installs into the staging directory, which is renamed to the install directory. */
  method CargoFallbackScenario(reason: string)
    returns (r: Result<Download, Error>, via: Strategy, events: seq<Event>, dirs: set<string>)
    ensures r == Ok(At(Join(ROOT, CargoInstallDirName(VERSION)))) && via == CargoInstall
    ensures dirs == {CargoInstallDirName(VERSION)}
    ensures events == [
      Fetch(PrebuiltRequest(true, PrebuiltUrl(VERSION, Host(Linux, X86_64)).value)),
      Spawn(CargoInstallCommand(VERSION, Join(ROOT, StagingDirName(VERSION))))]
  {
    var env := Env(Host(Linux, X86_64), NoGlobal(), AllRunsSucceed(),
                   (req: FetchRequest) => FetchError(reason), FsOutcomes(true, true, true));
    var cache := new Cache(ROOT, {});
    r, via, events := cache.InstallWasmBindgen(VERSION, true, env);
    dirs := cache.dirs;
  }

  /**
   * No permission, nothing cached, nothing global and no prebuilt archive
   * for the host: "not installed", with no download and no subprocess.
   */
  method NoPermissionScenario(host: Host) returns (r: Result<Download, Error>, via: Strategy, events: seq<Event>)
    requires !Supported(host)
    ensures r == Err(NotInstalled(VERSION)) && via == CargoInstall
    ensures events == []
  {
    var env := Env(host, NoGlobal(), AllRunsSucceed(), (req: FetchRequest) => NotCached, FsOutcomes(true, true, true));
    var cache := new Cache(ROOT, {});
    r, via, events := cache.InstallWasmBindgen(VERSION, false, env);
  }

  /** The reply of a `wasm-bindgen --version` that names `reported`. */
  function VersionReply(reported: string, build: string): (r: string) {
    "wasm-bindgen" + " " + reported + " " + build + "\n"
  }

  /** A reply naming another version than the dependency's fails the check. */
  lemma OtherVersionReply(reported: string, build: string)
    requires IsToken(reported) && IsToken(build) && reported != VERSION
    ensures !VersionMatches(Exited(VersionReply(reported, build)), VERSION)
  {
    assert IsToken("wasm-bindgen");
    TypicalReply("wasm-bindgen", reported, build, VERSION);
  }

  /** 64-bit macOS with a global `wasm-bindgen` in `dir` answering every command with `reply`. */
  function GlobalEnv(dir: string, reply: string, extracted: Download): (r: Env) {
    Env(Host(MacOs, X86_64), (name: string) => Some(BinaryPath(dir, "wasm-bindgen")), (argv: seq<string>) => Exited(reply),
        (req: FetchRequest) => Fetched(extracted), FsOutcomes(true, true, true))
  }

  /** In that environment the probe is one spawn, and the download succeeds. */
  lemma GlobalEnvFacts(dir: string, reply: string, extracted: Download)
    ensures GlobalHit(GlobalEnv(dir, reply, extracted), VERSION) <==> VersionMatches(Exited(reply), VERSION)
    ensures GlobalProbe(GlobalEnv(dir, reply, extracted)) == [Spawn(ProbeCommand(Join(dir, "wasm-bindgen")))]
    ensures DownloadPrebuilt(Host(MacOs, X86_64), VERSION, true, GlobalEnv(dir, reply, extracted).fetch).result == Ok(extracted)
  {
  }

  /** A global binary that reports another version is probed and then passed over for the download. */
  method VersionMismatchScenario(dir: string, reported: string, build: string, extracted: Download)
    returns (r: Result<Download, Error>, via: Strategy, events: seq<Event>)
    requires IsToken(reported) && IsToken(build) && reported != VERSION
    ensures r == Ok(extracted) && via == PrebuiltDownload
    ensures |events| == 2 && events[0] == Spawn(ProbeCommand(Join(dir, "wasm-bindgen"))) && events[1].Fetch?
  {
    var env := GlobalEnv(dir, VersionReply(reported, build), extracted);
    OtherVersionReply(reported, build);
    GlobalEnvFacts(dir, VersionReply(reported, build), extracted);
    var cache := new Cache(ROOT, {});
    r, via, events := cache.InstallWasmBindgen(VERSION, true, env);
  }

  /**
   * Installing again after a success returns the same handle by the same
   * step, leaves the cache as the first install left it, and never runs cargo.
   */
  method InstallTwice(cache: Cache, version: string, installPermitted: bool, env: Env)
    returns (r1: Result<Download, Error>, via1: Strategy, r2: Result<Download, Error>, via2: Strategy,
             events2: seq<Event>, ghost dirs1: set<string>)
    modifies cache
    ensures r1.Ok? ==> r2 == r1 && via2 == via1 && cache.dirs == dirs1
    ensures r1.Ok? ==> dirs1 == old(cache.dirs) || CargoInstallDirName(version) !in old(cache.dirs)
    ensures r1.Ok? ==> forall i :: 0 <= i < |events2| ==> events2[i] != Spawn(CargoInstallCommand(version, Join(cache.root, StagingDirName(version))))
  {
    var events1;
    r1, via1, events1 := cache.InstallWasmBindgen(version, installPermitted, env);
    dirs1 := cache.dirs;
    if r1.Ok? && !GlobalHit(env, version) && DownloadPrebuilt(env.host, version, installPermitted, env.fetch).result.Err? {
      CargoInstallHandleExists(cache.root, old(cache.dirs), version, installPermitted, env.fs, env.run);
      CargoInstallReuses(cache.root, dirs1, version, installPermitted, env.fs, env.run);
    }
    r2, via2, events2 := cache.InstallWasmBindgen(version, installPermitted, env);
  }
}
