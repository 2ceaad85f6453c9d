# wasm-bindgen installation and invocation in wasm-pack

This project models how wasm-pack obtains the `wasm-bindgen` command-line
tool and how it runs it, as done by `src/bindgen.rs`. It proves properties
of that model in Dafny.

- **Installation** tries three strategies in order; the first success wins.
  1. Reuse a `wasm-bindgen` found on `$PATH` whose `--version` output names
     the version the crate depends on.
  2. Download a prebuilt release archive into the binary cache. Only 64-bit
     Linux, macOS and Windows have one.
  3. `cargo install` the CLI into a staging directory of the cache, then
     rename it to its final name. This runs only if installing is permitted,
     and not at all when a finished install already exists.
- **Invocation** builds the argument vector for the CLI and runs it:
  - the crate's `.wasm` file for the chosen profile;
  - the output directory;
  - the TypeScript flag;
  - the target flag;
  - `--debug` for debug builds.

The model has these parts:

- `RustStr` reproduces the Rust string operations the version check uses:
  - `char::is_whitespace`, as the Unicode White_Space set;
  - `str::trim`;
  - `str::split_whitespace`;
  - `Iterator::nth`.

  `split_whitespace` also gets an independent characterisation. A string
  splits into a given list of words exactly when it is that list woven
  between whitespace gaps (`Weave`, `WellFormedLayout`).
- `Interfaces` holds four things:
  - the path join;
  - the `Download` handle;
  - the two oracles: subprocess outcome and cache download;
  - the error values and a journal of external effects: spawned commands and
    download requests.
- `Target` and `Prebuilt` cover two functions, and prove the URL
  injective for versions without `/`:
  - `prebuilt_url`, the host table and URL format;
  - `download_prebuilt_wasm_bindgen`.
- `VersionProbe` covers `wasm_bindgen_version_check`.
- `CacheInstall` holds two things:
  - a `Cache` class whose `dirs` field is the set of directory names under
    the cache root;
  - the methods `CargoInstallWasmBindgen` (the staging protocol) and
    `InstallWasmBindgen` (the three-step pipeline).

  Each method is proved against a specification function or against a full
  case split. The lemmas about `CargoInstallOutcome` state the protocol's
  guarantees.
- `BindgenBuild` covers:
  - the argument vector of `wasm_bindgen_build`, built step by step;
  - a decoder that recovers the options from the vector, with a round trip
    to it.
- `Scenarios` covers whole-pipeline situations and re-running an install
  that succeeded.

The following effects become parameters:

- `which`, a function from a program name to an optional `BinaryPath` of
  directory and file;
- `child::run`, a function from an argument vector to `Exited(stdout)` or
  `RunFailed`;
- `Cache::download`, a function from a `FetchRequest` to an error, `NotCached`
  or a `Download`;
- the success of `fs::remove_dir_all`, `fs::create_dir_all` and `fs::rename`,
  as three booleans in `FsOutcomes`.

The order of the steps follows the code of `install_wasm_bindgen`
(src/bindgen.rs:35-61), not its doc comment (src/bindgen.rs:19-22), which
puts an existing local install first. `which` is consulted first, and the
cargo-install directory is looked at only after the download attempt has
failed. A matching global binary together with an existing
`wasm-bindgen-cargo-install-<version>` directory therefore gives
`GlobalReuse`.

The pipeline also returns a `Strategy` tag (`GlobalReuse`,
`PrebuiltDownload` or `CargoInstall`) naming the step that produced the
result. The Rust code returns only the `Download`. The tag lets the
contracts say which branch was taken.

## Model

| member | source | states |
|---|---|---|
| RustStr.Trim | src/bindgen.rs:199 | the result is the slice of the input between a leading and a trailing run of Unicode whitespace, and it neither starts nor ends with whitespace |
| RustStr.SplitTokens | src/bindgen.rs:200 | every word produced is non-empty and free of whitespace |
| RustStr.Nth | src/bindgen.rs:201 | `nth(n)` is present exactly when the sequence has more than `n` items, and is then the item at index `n` |
| RustStr.SplitWeave | src/bindgen.rs:200 | words woven between whitespace gaps (non-empty between words) split back into exactly those words |
| RustStr.GapsLayout | src/bindgen.rs:200 | every string is its own words woven between well-formed whitespace gaps |
| RustStr.SplitIffLayout | src/bindgen.rs:200 | a string splits into a list of words if and only if it is that list woven between well-formed gaps |
| RustStr.SplitAppendWhitespace | src/bindgen.rs:200 | trailing whitespace does not change the words |
| RustStr.SplitTrimStart | src/bindgen.rs:199-200 | stripping leading whitespace does not change the words |
| RustStr.SplitTrim | src/bindgen.rs:198-200 | `trim` before `split_whitespace` does not change the words |
| VersionProbe.VersionMatches | src/bindgen.rs:193-211 | a failed subprocess never matches, and a match implies the required version is a single whitespace-free word |
| VersionProbe.VersionMatchesSecondWord | src/bindgen.rs:196-211 | the check holds if and only if the output has at least two words and the second equals the required version exactly |
| VersionProbe.VersionMatchesLayout | src/bindgen.rs:196-211 | for output laid out as gaps and words, the check holds if and only if there are two or more words and the second is the required version |
| VersionProbe.ShortReplyNeverMatches | src/bindgen.rs:201-210 | output with fewer than two words never matches; it yields false, not an error |
| VersionProbe.TypicalReply | src/bindgen.rs:198-209 | a reply `name version build` plus newline matches exactly the dependency version equal to its second word |
| Prebuilt.PrebuiltUrlCases | src/bindgen.rs:83-98 | a URL exists if and only if the host is x86_64 Linux, macOS or Windows, and it is the release-download URL with the musl, apple-darwin or pc-windows-msvc triple |
| Prebuilt.PrebuiltUrlInjective | src/bindgen.rs:94-98 | for versions without `/`, equal URLs come from equal versions and hosts |
| Prebuilt.DownloadPrebuilt | src/bindgen.rs:65-79 | an unsupported host fails with the "no prebuilt binaries" error and makes no download request; otherwise exactly one request is made for tool `wasm-bindgen` with binaries `wasm-bindgen` and `wasm-bindgen-test-runner`, and its error, `None` ("not installed") or handle is the result |
| Prebuilt.DownloadPrebuiltMessages | src/bindgen.rs:70-77 | an unsupported host gives "no prebuilt wasm-bindgen binaries are available for this platform", and a cache without a copy gives "wasm-bindgen v<version> is not installed!" |
| CacheInstall.StagingIsNotDestination | src/bindgen.rs:109-121 | the staging directory name differs from the install directory name |
| CacheInstall.CargoInstallReuses | src/bindgen.rs:109-113 | an existing install directory is returned whatever the permission, with no command and no change |
| CacheInstall.CargoInstallNeedsPermission | src/bindgen.rs:115-117 | with no install and no permission the result is "not installed", with no command and no change |
| CacheInstall.DestinationOnlyAfterInstall | src/bindgen.rs:119-137 | an absent install directory is present afterwards if and only if creating the staging directory succeeded, cargo ran exactly once with `--root` at the staging directory and succeeded, and the rename succeeded |
| CacheInstall.CargoInstallHandleExists | src/bindgen.rs:109-137 | a successful result is the install directory's handle, and that directory exists afterwards |
| CacheInstall.CargoInstallFrame | src/bindgen.rs:121-137 | only the staging and install directories change; a fresh success leaves no staging directory; a failure never creates the install directory |
| CacheInstall.CargoInstallErrors | src/bindgen.rs:109-137 | the only errors are "not installed" (when install is not permitted, with nothing run), directory creation, the cargo command in the "Installing wasm-bindgen with cargo" context, and the rename |
| CacheInstall.CargoInstallIdempotent | src/bindgen.rs:109-113 | after a successful install, installing again returns the same handle, runs nothing and changes nothing, whatever the permission and the oracles |
| CacheInstall.CargoInstallMessages | src/bindgen.rs:115-134 | a refusal without permission reads "wasm-bindgen v<version> is not installed!", and a failed cargo run carries the "Installing wasm-bindgen with cargo" context |
| CacheInstall.Cache.RemoveDirAll | src/bindgen.rs:122 | the directory is gone if removal succeeded, and otherwise nothing changes |
| CacheInstall.Cache.CreateDirAll | src/bindgen.rs:123 | the directory is present if creation succeeded, and otherwise nothing changes; the result reports which happened |
| CacheInstall.Cache.RenameDir | src/bindgen.rs:136 | the rename succeeds only for an existing source; then the source is replaced by the target, and otherwise nothing changes |
| CacheInstall.Cache.CargoInstallWasmBindgen | src/bindgen.rs:103-138 | the result, the new directory set and the spawned commands are those of the staging protocol `CargoInstallOutcome`, with the command `cargo install --force wasm-bindgen-cli --version v --root staging` |
| CacheInstall.Cache.InstallWasmBindgen | src/bindgen.rs:23-62 | the global binary is used if and only if `which` finds one whose version check passes; otherwise a successful prebuilt download is returned unchanged; otherwise the result is exactly that of cargo-install; a download error and the "no prebuilt" error are never returned; an unsupported host makes no download request |
| BindgenBuild.BuildArgv | src/bindgen.rs:155-186 | the vector is binary, `.wasm` path, `--out-dir`, output directory, the TypeScript flag, the target flag and then `--debug` if and only if debug; each flag is tied to its option in both directions |
| BindgenBuild.BuildCommand | src/bindgen.rs:176-186 | the command built argument by argument is `BuildArgv` |
| BindgenBuild.WasmBindgenBuild | src/bindgen.rs:142-190 | exactly one command is spawned, the build vector; the result is success if and only if it succeeded, and otherwise the error in the "Running the wasm-bindgen CLI" context |
| BindgenBuild.BuildArgvRoundTrip | src/bindgen.rs:166-186 | decoding the build vector recovers the binary, input path, output directory, TypeScript choice, target mode and debug flag |
| BindgenBuild.WasmPathProfile | src/bindgen.rs:155-164 | the `.wasm` path determines the profile: debug and release builds use different inputs |
| Scenarios.PrebuiltDownloadScenario | src/bindgen.rs:49-51 | on 64-bit Linux with nothing global, the prebuilt handle is returned after a single download request for the Linux archive |
| Scenarios.CargoFallbackScenario | src/bindgen.rs:49-61 | when the download fails, cargo installs into the staging directory; only the install directory remains, and exactly the download request and the cargo command happened |
| Scenarios.NoPermissionScenario | src/bindgen.rs:61-117 | on an unsupported host without permission the result is "not installed", with no download and no subprocess |
| Scenarios.OtherVersionReply | src/bindgen.rs:198-209 | a reply naming another version fails the version check |
| Scenarios.GlobalEnvFacts | src/bindgen.rs:35-41 | with a global binary, the global step is taken if and only if its reply matches, and the probe is one `--version` command in the binary's directory |
| Scenarios.VersionMismatchScenario | src/bindgen.rs:35-51 | a global binary reporting another version is probed once and then passed over for the prebuilt download |
| Scenarios.InstallTwice | src/bindgen.rs:23-113 | after a successful install, a second install returns the same handle by the same step, leaves the cache directories as the first install left them, and never runs the cargo command |
| Interfaces.Join | src/bindgen.rs:110 | the joined path is the directory, one `/` and the name |

## Left out

- `which`, `child::run` and `Cache::download` are oracles. The model does not search `$PATH`, spawn processes or fetch and extract archives. `Cache::download` belongs to the `wasm_pack_binary_install` crate, which is not part of this model.
- `Download::at`, `Download::binary` and `Cache::join` are modelled as joining with `/`. The model has no Windows `\` separator, no `.exe` suffix and no path normalisation.
- `BindgenBuild.WasmPath`: appends `.wasm` to the crate name. `Path::with_extension` would replace an existing extension, such as a crate name containing a dot.
- Two panics are not modelled. `out_dir.to_str().unwrap()` cannot fail, because paths are strings here. `path.parent().unwrap()` cannot fail, because `which` returns a directory and a file name.
- Logging through `debug!`, `info!` and `warn!`, and the progress-bar steps from `PBAR.step`, are UI output and are left out.
- The texts of operating-system and I/O errors are left out. A failing filesystem call is reported as `IoFailed(CreateDir)` or `IoFailed(Rename)`. A failure of `remove_dir_all` is ignored, as in the code.
- `Cache.dirs` tracks only the names of directories directly under the cache root. It does not track their files, or the directories `Cache::download` extracts archives into.
- Concurrent processes sharing the cache root are left out, and so are interrupted runs (ctrl-c) that leave a staging directory behind. The model states only that the next install removes it.
- `tests/all/main.rs` declares test modules and holds no logic.
- A check corresponding to a "tool not found in handle" error, raised when the installed handle lacks the binary, is not modelled. `wasm_bindgen_build` only builds the path with `bindgen.binary("wasm-bindgen")` and runs it, so this model follows the code. In the model a missing binary can only show up as a failed run of the build command, through the `run` oracle. What `Download::binary` itself does with a missing binary is not part of this model.
