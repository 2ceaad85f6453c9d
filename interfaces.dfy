/**
 * The collaborators the installer talks to, reduced to values: paths, the
 * `Download` handle of the binary cache, the outcome of a subprocess run
 * through `child::run`, the outcome of `Cache::download`, the journal of
 * external effects, and the errors the installer reports.
 */
module Interfaces {
  import opened Wrappers

  /** `Path::join` of a relative name onto a directory, with `/` as the separator. */
  function Join(dir: string, name: string): (p: string)
    ensures |p| == |dir| + 1 + |name|
    ensures p[..|dir|] == dir && p[|dir|] == '/' && p[|dir| + 1..] == name
  {
    dir + "/" + name
  }

  /** `Download::at(dir)`: a directory that holds the installed binaries. */
  datatype Download = At(root: string)

  /** `Download::binary(name)`: the path of one binary inside the handle's directory. */
  function Binary(d: Download, name: string): (r: string) {
    Join(d.root, name)
  }

  /** A binary found on `$PATH` by `which`: its directory and its file name. */
  datatype BinaryPath = BinaryPath(dir: string, file: string)

  function FullPath(p: BinaryPath): (r: string) {
    Join(p.dir, p.file)
  }

  /** `child::run`: the captured stdout of a run that exited successfully, or a failure. */
  datatype RunOutcome = Exited(stdout: string) | RunFailed

  /** The arguments of `Cache::download(install_permitted, name, binaries, url)`. */
  datatype FetchRequest = FetchRequest(installPermitted: bool, name: string, binaries: seq<string>, url: string)

  /** What `Cache::download` returns: an error, `Ok(None)` or `Ok(Some(download))`. */
  datatype FetchOutcome = FetchError(reason: string) | NotCached | Fetched(download: Download)

  /** One external effect: a subprocess spawned with an argument vector (program first), or a cache download. */
  datatype Event = Spawn(argv: seq<string>) | Fetch(request: FetchRequest)

  datatype IoOp = CreateDir | Rename

  datatype Error =
    | NoPrebuiltForPlatform
    | NotInstalled(version: string)
    | DownloadFailed(reason: string)
    | IoFailed(op: IoOp)
    | CommandFailed(context: string)

  /**
   * The fixed text of an error, where the installer writes one: the two
   * `bail!` messages and the context added to a failed `cargo install` or
   * `wasm-bindgen` run. The others carry the text of the cache or the OS.
   */
  function Message(e: Error): (r: Option<string>) {
    match e
    case NoPrebuiltForPlatform => Some("no prebuilt wasm-bindgen binaries are available for this platform")
    case NotInstalled(v) => Some("wasm-bindgen v" + v + " is not installed!")
    case CommandFailed(context) => Some(context)
    case _ => None
  }

  predicate IsFetch(e: Event) {
    e.Fetch?
  }

  /** No event of the journal touches the network. */
  predicate NoFetch(events: seq<Event>) {
    forall i :: 0 <= i < |events| ==> !IsFetch(events[i])
  }
}
