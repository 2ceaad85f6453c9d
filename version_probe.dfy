/**
 * `wasm_bindgen_version_check`: run a candidate binary with `--version` and
 * compare the second whitespace-separated word of what it prints with the
 * required version, as exact strings. A failed run or a reply with fewer
 * than two words is "no match", never an error.
 */
module VersionProbe {
  import opened Wrappers
  import opened RustStr
  import opened Interfaces

  /** The command the probe runs: the candidate binary with `--version`. */
  function ProbeCommand(binary: string): (r: seq<string>) {
    [binary, "--version"]
  }

  /** The parsing of the probe's outcome: `trim`, `split_whitespace`, `nth(1)`, `==`, and `false` in every other case. */
  function VersionMatches(probe: RunOutcome, depVersion: string): (ok: bool)
    ensures probe.RunFailed? ==> !ok
    ensures ok ==> IsToken(depVersion)
  {
    match probe
    case RunFailed => false
    case Exited(stdout) =>
      SplitTokens(Trim(stdout));
      match Nth(SplitWhitespace(Trim(stdout)), 1)
      case Some(v) => v == depVersion
      case None => false
  }

  /** `wasm_bindgen_version_check(path, dep_version)`, with `run` standing for `child::run`. */
  function WasmBindgenVersionCheck(binary: string, depVersion: string, run: seq<string> -> RunOutcome): (r: bool) {
    VersionMatches(run(ProbeCommand(binary)), depVersion)
  }

  /** The check passes exactly when the run succeeded and the second word of its output is the required version. */
  lemma VersionMatchesSecondWord(stdout: string, depVersion: string)
    ensures VersionMatches(Exited(stdout), depVersion)
        <==> |SplitWhitespace(stdout)| >= 2 && SplitWhitespace(stdout)[1] == depVersion
  {
    SplitTrim(stdout);
  }

  /** The same, for output given as whitespace gaps around words. */
  lemma VersionMatchesLayout(gaps: seq<string>, words: seq<string>, depVersion: string)
    requires WellFormedLayout(gaps, words)
    ensures VersionMatches(Exited(Weave(gaps, words)), depVersion) <==> |words| >= 2 && words[1] == depVersion
  {
    VersionMatchesSecondWord(Weave(gaps, words), depVersion);
    SplitWeave(gaps, words);
  }

  /** Output with fewer than two words never matches. */
  lemma ShortReplyNeverMatches(stdout: string, depVersion: string)
    requires |SplitWhitespace(stdout)| < 2
    ensures !VersionMatches(Exited(stdout), depVersion)
  {
    VersionMatchesSecondWord(stdout, depVersion);
  }

  /**
   * The reply `<name> <version> <build>` (with a trailing newline) matches
   * exactly the one required version spelled as it prints it; no prefix,
   * extension or other spelling of it matches.
   */
  lemma TypicalReply(name: string, version: string, build: string, depVersion: string)
    requires IsToken(name) && IsToken(version) && IsToken(build)
    ensures VersionMatches(Exited(name + " " + version + " " + build + "\n"), depVersion) <==> depVersion == version
  {
    var gaps, words := ["", " ", " ", "\n"], [name, version, build];
    var reply := name + " " + version + " " + build + "\n";
    assert Weave(gaps, words) == reply by {
      assert gaps[1..] == [" ", " ", "\n"] && words[1..] == [version, build];
      assert gaps[2..] == [" ", "\n"] && words[2..] == [build];
      assert Weave(gaps[3..], words[3..]) == "\n";
      assert Weave(gaps[2..], words[2..]) == " " + build + "\n";
      assert Weave(gaps[1..], words[1..]) == " " + version + " " + build + "\n";
    }
    assert WellFormedLayout(gaps, words) by {
      assert IsWhitespace(' ') && IsWhitespace('\n');
      assert AllWhitespace(gaps[0]) && AllWhitespace(gaps[1]) && AllWhitespace(gaps[2]) && AllWhitespace(gaps[3]);
    }
    VersionMatchesLayout(gaps, words, depVersion);
  }
}
