/**
 * Prebuilt `wasm-bindgen` archives: which hosts have one, the release URL
 * of the archive, and `download_prebuilt_wasm_bindgen`, which asks the
 * binary cache for it.
 */
module Prebuilt {
  import opened Wrappers
  import opened Target
  import opened Interfaces

  const RELEASES_BASE := "https://github.com/rustwasm/wasm-bindgen/releases/download/"
  const LINUX_TRIPLE := "x86_64-unknown-linux-musl"
  const MACOS_TRIPLE := "x86_64-apple-darwin"
  const WINDOWS_TRIPLE := "x86_64-pc-windows-msvc"

  /** The binaries a prebuilt archive must contain. */
  const PREBUILT_BINARIES := ["wasm-bindgen", "wasm-bindgen-test-runner"]

  /** The hosts with a prebuilt archive: 64-bit x86 Linux, macOS and Windows. */
  predicate Supported(host: Host) {
    host.arch == X86_64 && (host.os == Linux || host.os == MacOs || host.os == Windows)
  }

  /** The target triple of the host's archive, from the if/else table of `prebuilt_url`. */
  function PrebuiltTriple(host: Host): (r: Option<string>) {
    if host.os == Linux && host.arch == X86_64 then Some(LINUX_TRIPLE)
    else if host.os == MacOs && host.arch == X86_64 then Some(MACOS_TRIPLE)
    else if host.os == Windows && host.arch == X86_64 then Some(WINDOWS_TRIPLE)
    else None
  }

  /** `prebuilt_url`: the release URL of the archive for `version` on `host`, if the host has one. */
  function PrebuiltUrl(version: string, host: Host): (r: Option<string>) {
    match PrebuiltTriple(host)
    case None => None
    case Some(triple) =>
      Some(RELEASES_BASE + version + "/wasm-bindgen-" + version + "-" + triple + ".tar.gz")
  }

  /** There is a URL exactly for the supported hosts, and it names the release and the archive of that host's triple. */
  lemma PrebuiltUrlCases(version: string, host: Host)
    ensures PrebuiltUrl(version, host).Some? <==> Supported(host)
    ensures host == Host(Linux, X86_64) ==>
      PrebuiltUrl(version, host) == Some(RELEASES_BASE + version + "/wasm-bindgen-" + version + "-" + LINUX_TRIPLE + ".tar.gz")
    ensures host == Host(MacOs, X86_64) ==>
      PrebuiltUrl(version, host) == Some(RELEASES_BASE + version + "/wasm-bindgen-" + version + "-" + MACOS_TRIPLE + ".tar.gz")
    ensures host == Host(Windows, X86_64) ==>
      PrebuiltUrl(version, host) == Some(RELEASES_BASE + version + "/wasm-bindgen-" + version + "-" + WINDOWS_TRIPLE + ".tar.gz")
  {
  }

  /** Index of the first `/` in `s`, or `|s|` when there is none. */
  function FirstSlash(s: string): (k: nat)
    ensures k <= |s|
  {
    if s == [] || s[0] == '/' then 0 else 1 + FirstSlash(s[1..])
  }

  lemma {:induction false} FirstSlashAfter(x: string, rest: string)
    requires '/' !in x
    ensures FirstSlash(x + "/" + rest) == |x|
    decreases |x|
  {
    if x != [] {
      assert (x + "/" + rest)[1..] == x[1..] + "/" + rest;
      assert x[0] in x;
      FirstSlashAfter(x[1..], rest);
    }
  }

  /** Two strings that each run up to their first `/` and agree after it. */
  lemma SplitAtFirstSlash(x: string, y: string, s1: string, s2: string)
    requires '/' !in x && '/' !in y
    requires x + "/" + s1 == y + "/" + s2
    ensures x == y && s1 == s2
  {
    var u := x + "/" + s1;
    FirstSlashAfter(x, s1);
    FirstSlashAfter(y, s2);
    assert x == u[..|x|] && y == u[..|y|];
    assert s1 == u[|x| + 1..] && s2 == u[|y| + 1..];
  }

  /** The archive file name inside a release. */
  function ArchiveName(version: string, triple: string): (r: string) {
    "wasm-bindgen-" + version + "-" + triple + ".tar.gz"
  }

  /** The URL is the release directory of `version` followed by the archive name. */
  lemma UrlShape(version: string, triple: string)
    ensures RELEASES_BASE + version + "/wasm-bindgen-" + version + "-" + triple + ".tar.gz"
         == RELEASES_BASE + (version + "/" + ArchiveName(version, triple))
  {
    var slash, name := "/", "wasm-bindgen-";
    assert "/wasm-bindgen-" == slash + name;
    var tail := version + "-" + triple + ".tar.gz";
    assert "/wasm-bindgen-" + version + "-" + triple + ".tar.gz" == slash + name + tail;
    assert ArchiveName(version, triple) == name + tail;
  }

  lemma ArchiveTriple(version: string, t1: string, t2: string)
    requires ArchiveName(version, t1) == ArchiveName(version, t2)
    ensures t1 == t2
  {
    var p := "wasm-bindgen-" + version + "-";
    var a1, a2 := ArchiveName(version, t1), ArchiveName(version, t2);
    assert a1 == p + t1 + ".tar.gz" && a2 == p + t2 + ".tar.gz";
    assert t1 == a1[|p|..|a1| - 7];
    assert t2 == a2[|p|..|a2| - 7];
  }

  /**
   * The URL identifies the release and the host: for versions without a `/`,
   * two hosts and versions with the same URL are the same host and version.
   */
  lemma PrebuiltUrlInjective(v1: string, h1: Host, v2: string, h2: Host)
    requires '/' !in v1 && '/' !in v2
    requires PrebuiltUrl(v1, h1).Some? && PrebuiltUrl(v1, h1) == PrebuiltUrl(v2, h2)
    ensures v1 == v2 && h1 == h2
  {
    var t1, t2 := PrebuiltTriple(h1).value, PrebuiltTriple(h2).value;
    var a1, a2 := ArchiveName(v1, t1), ArchiveName(v2, t2);
    UrlShape(v1, t1);
    UrlShape(v2, t2);
    var x1, x2 := v1 + "/" + a1, v2 + "/" + a2;
    assert RELEASES_BASE + x1 == RELEASES_BASE + x2;
    assert x1 == (RELEASES_BASE + x1)[|RELEASES_BASE|..];
    assert x2 == (RELEASES_BASE + x2)[|RELEASES_BASE|..];
    SplitAtFirstSlash(v1, v2, a1, a2);
    ArchiveTriple(v1, t1, t2);
  }

  /** What one call of `download_prebuilt_wasm_bindgen` returns, and the downloads it asked the cache for. */
  datatype Attempt = Attempt(result: Result<Download, Error>, events: seq<Event>)

  /** The request `download_prebuilt_wasm_bindgen` makes of the cache for `url`. */
  function PrebuiltRequest(installPermitted: bool, url: string): (r: FetchRequest) {
    FetchRequest(installPermitted, "wasm-bindgen", PREBUILT_BINARIES, url)
  }

  /**
   * `download_prebuilt_wasm_bindgen`: no URL for the host fails before the
   * cache is asked; otherwise the cache is asked once, for both binaries, and
   * its error, its `None` (as "not installed") or its handle is the result.
   * `fetch` stands for `Cache::download`.
   */
  function DownloadPrebuilt(host: Host, version: string, installPermitted: bool, fetch: FetchRequest -> FetchOutcome): (a: Attempt)
    ensures !Supported(host) ==> a == Attempt(Err(NoPrebuiltForPlatform), [])
    ensures Supported(host) ==>
      var request := FetchRequest(installPermitted, "wasm-bindgen", ["wasm-bindgen", "wasm-bindgen-test-runner"],
                                  PrebuiltUrl(version, host).value);
      && a.events == [Fetch(request)]
      && (a.result.Ok? <==> fetch(request).Fetched?)
      && (fetch(request).Fetched? ==> a.result.value == fetch(request).download)
      && (fetch(request).NotCached? ==> a.result == Err(NotInstalled(version)))
      && (fetch(request).FetchError? ==> a.result == Err(DownloadFailed(fetch(request).reason)))
  {
    PrebuiltUrlCases(version, host);
    match PrebuiltUrl(version, host)
    case None => Attempt(Err(NoPrebuiltForPlatform), [])
    case Some(url) =>
      var request := PrebuiltRequest(installPermitted, url);
      var result := match fetch(request)
        case FetchError(reason) => Err(DownloadFailed(reason))
        case NotCached => Err(NotInstalled(version))
        case Fetched(download) => Ok(download);
      Attempt(result, [Fetch(request)])
  }

  /** The texts of the two `bail!`s: an unsupported host, and a cache that holds no copy. */
  lemma DownloadPrebuiltMessages(host: Host, version: string, installPermitted: bool, fetch: FetchRequest -> FetchOutcome)
    ensures var a := DownloadPrebuilt(host, version, installPermitted, fetch);
      && (!Supported(host) ==>
            Message(a.result.error) == Some("no prebuilt wasm-bindgen binaries are available for this platform"))
      && (Supported(host) && fetch(PrebuiltRequest(installPermitted, PrebuiltUrl(version, host).value)).NotCached? ==>
            Message(a.result.error) == Some("wasm-bindgen v" + version + " is not installed!"))
  {
  }
}
