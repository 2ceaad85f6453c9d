/**
 * The parts of Rust's `str` API that the version probe relies on:
 * `char::is_whitespace`, `str::trim`, `str::split_whitespace` and
 * `Iterator::nth`.
 *
 * Besides the definitions, this module gives `SplitWhitespace` an
 * independent characterisation: a string is a *layout* of gaps (runs of
 * whitespace) and tokens (runs of non-whitespace), and splitting returns
 * exactly the tokens of the one layout every string has.
 */
module RustStr {
  import opened Wrappers

  /** The Unicode White_Space property, which `char::is_whitespace` tests. */
  predicate IsWhitespace(c: char) {
    ('\U{0009}' <= c <= '\U{000D}') || c == ' ' || c == '\U{0085}' || c == '\U{00A0}'
    || c == '\U{1680}' || ('\U{2000}' <= c <= '\U{200A}') || c == '\U{2028}'
    || c == '\U{2029}' || c == '\U{202F}' || c == '\U{205F}' || c == '\U{3000}'
  }

  predicate AllWhitespace(s: string) {
    forall i :: 0 <= i < |s| ==> IsWhitespace(s[i])
  }

  /** A token of `split_whitespace`: non-empty and free of whitespace. */
  predicate IsToken(s: string) {
    |s| > 0 && forall i :: 0 <= i < |s| ==> !IsWhitespace(s[i])
  }

  /** Length of the leading whitespace run. */
  function LeadingWhitespace(s: string): (k: nat)
    ensures k <= |s|
    ensures k == |s| || !IsWhitespace(s[k])
  {
    if s != [] && IsWhitespace(s[0]) then 1 + LeadingWhitespace(s[1..]) else 0
  }

  /** Where the trailing whitespace run starts. */
  function TrailingWhitespace(s: string): (k: nat)
    ensures k <= |s|
    ensures k == 0 || !IsWhitespace(s[k - 1])
  {
    if s != [] && IsWhitespace(s[|s| - 1]) then TrailingWhitespace(s[..|s| - 1]) else |s|
  }

  /** Length of the leading run of non-whitespace characters. */
  function TokenEnd(s: string): (n: nat)
    ensures n <= |s|
    ensures n == |s| || IsWhitespace(s[n])
  {
    if s == [] || IsWhitespace(s[0]) then 0 else 1 + TokenEnd(s[1..])
  }

  /** `str::trim_start`: drops the leading whitespace run. */
  function TrimStart(s: string): (r: string)
    ensures r == [] || !IsWhitespace(r[0])
    ensures exists i :: 0 <= i <= |s| && r == s[i..] && AllWhitespace(s[..i])
  {
    var i := LeadingWhitespace(s);
    LeadingWhitespaceRun(s);
    assert AllWhitespace(s[..i]);
    s[i..]
  }

  /** `str::trim_end`: drops the trailing whitespace run. */
  function TrimEnd(s: string): (r: string)
    ensures r == [] || !IsWhitespace(r[|r| - 1])
    ensures exists j :: 0 <= j <= |s| && r == s[..j] && AllWhitespace(s[j..])
  {
    var j := TrailingWhitespace(s);
    TrailingWhitespaceRun(s);
    assert AllWhitespace(s[j..]);
    s[..j]
  }

  /** `str::trim`: drops whitespace at both ends, leaving a slice of `s` between two whitespace runs. */
  function Trim(s: string): (r: string)
    ensures r == [] || (!IsWhitespace(r[0]) && !IsWhitespace(r[|r| - 1]))
    ensures exists i, j :: 0 <= i <= j <= |s| && r == s[i..j] && AllWhitespace(s[..i]) && AllWhitespace(s[j..])
  {
    TrimSlice(s);
    TrimEnd(TrimStart(s))
  }

  /** Trimming at both ends keeps the slice between the leading and the trailing whitespace run. */
  lemma TrimSlice(s: string)
    ensures exists i, j :: 0 <= i <= j <= |s| && TrimEnd(TrimStart(s)) == s[i..j] && AllWhitespace(s[..i]) && AllWhitespace(s[j..])
  {
    var i := LeadingWhitespace(s);
    var u := s[i..];
    var j := i + TrailingWhitespace(u);
    assert TrimEnd(TrimStart(s)) == s[i..j] by {
      assert TrimStart(s) == u;
      assert u[..j - i] == s[i..j];
    }
    assert AllWhitespace(s[..i]) by {
      LeadingWhitespaceRun(s);
    }
    assert AllWhitespace(s[j..]) by {
      TrailingWhitespaceRun(u);
      assert u[j - i..] == s[j..];
    }
  }

  /** `str::split_whitespace`, collected into a sequence. */
  function SplitWhitespace(s: string): (r: seq<string>)
    decreases |s|
  {
    var k := LeadingWhitespace(s);
    if k == |s| then []
    else
      var n := TokenEnd(s[k..]);
      [s[k..k + n]] + SplitWhitespace(s[k + n..])
  }

  /** Every word `split_whitespace` produces is non-empty and free of whitespace. */
  lemma {:induction false} SplitTokens(s: string)
    ensures forall i :: 0 <= i < |SplitWhitespace(s)| ==> IsToken(SplitWhitespace(s)[i])
    decreases |s|
  {
    var k := LeadingWhitespace(s);
    if k < |s| {
      var n := TokenEnd(s[k..]);
      assert IsToken(s[k..k + n]) by {
        var u, tok := s[k..], s[k..k + n];
        TokenEndRun(u);
        assert u[0] == s[k];
        assert n > 0;
        forall i | 0 <= i < n ensures !IsWhitespace(tok[i]) {
          assert tok[i] == u[i];
        }
      }
      SplitTokens(s[k + n..]);
    }
  }

  /** `Iterator::nth`: the element at index `n`, if there is one. */
  function Nth<T>(s: seq<T>, n: nat): (r: Option<T>)
    ensures r.Some? <==> n < |s|
    ensures r.Some? ==> r.value == s[n]
  {
    if n < |s| then Some(s[n]) else None
  }

  // ---------------------------------------------------------------------
  // The run lengths are determined by their defining properties

  /** The leading run is whitespace throughout. */
  lemma {:induction false} LeadingWhitespaceRun(s: string)
    ensures forall i :: 0 <= i < LeadingWhitespace(s) ==> IsWhitespace(s[i])
    decreases |s|
  {
    if s != [] && IsWhitespace(s[0]) {
      LeadingWhitespaceRun(s[1..]);
      assert forall i :: 1 <= i < LeadingWhitespace(s) ==> s[i] == s[1..][i - 1];
    }
  }

  /** The trailing run is whitespace throughout. */
  lemma {:induction false} TrailingWhitespaceRun(s: string)
    ensures forall i :: TrailingWhitespace(s) <= i < |s| ==> IsWhitespace(s[i])
    decreases |s|
  {
    if s != [] && IsWhitespace(s[|s| - 1]) {
      TrailingWhitespaceRun(s[..|s| - 1]);
      assert forall i :: TrailingWhitespace(s) <= i < |s| - 1 ==> s[i] == s[..|s| - 1][i];
    }
  }

  /** The token run is free of whitespace. */
  lemma {:induction false} TokenEndRun(s: string)
    ensures forall i :: 0 <= i < TokenEnd(s) ==> !IsWhitespace(s[i])
    decreases |s|
  {
    if s != [] && !IsWhitespace(s[0]) {
      TokenEndRun(s[1..]);
      assert forall i :: 1 <= i < TokenEnd(s) ==> s[i] == s[1..][i - 1];
    }
  }

  lemma LeadingWhitespaceUnique(s: string, k: nat)
    requires k <= |s|
    requires forall i :: 0 <= i < k ==> IsWhitespace(s[i])
    requires k == |s| || !IsWhitespace(s[k])
    ensures LeadingWhitespace(s) == k
    decreases |s|
  {
    if k > 0 {
      LeadingWhitespaceUnique(s[1..], k - 1);
    }
  }

  lemma TokenEndUnique(s: string, n: nat)
    requires n <= |s|
    requires forall i :: 0 <= i < n ==> !IsWhitespace(s[i])
    requires n == |s| || IsWhitespace(s[n])
    ensures TokenEnd(s) == n
    decreases |s|
  {
    if n > 0 {
      TokenEndUnique(s[1..], n - 1);
    }
  }

  // ---------------------------------------------------------------------
  // Layouts: gaps[0] + toks[0] + gaps[1] + ... + toks[k-1] + gaps[k]

  function Weave(gaps: seq<string>, toks: seq<string>): (r: string)
    requires |gaps| == |toks| + 1
    decreases |toks|
  {
    if toks == [] then gaps[0] else gaps[0] + toks[0] + Weave(gaps[1..], toks[1..])
  }

  /** Gaps are whitespace, tokens are tokens, and the gaps between two tokens are not empty. */
  predicate WellFormedLayout(gaps: seq<string>, toks: seq<string>) {
    |gaps| == |toks| + 1
    && (forall i :: 0 <= i < |gaps| ==> AllWhitespace(gaps[i]))
    && (forall i :: 0 <= i < |toks| ==> IsToken(toks[i]))
    && (forall i :: 0 < i < |toks| ==> |gaps[i]| > 0)
  }

  /** The text after the first token of a layout is empty or starts with whitespace. */
  lemma RestStartsWithGap(gaps: seq<string>, toks: seq<string>)
    requires |toks| > 0 && WellFormedLayout(gaps, toks)
    ensures var rest := Weave(gaps[1..], toks[1..]); rest == [] || IsWhitespace(rest[0])
  {
    var g', t' := gaps[1..], toks[1..];
    assert AllWhitespace(g'[0]);
    if t' != [] {
      assert |g'[0]| > 0;
      assert Weave(g', t') == g'[0] + t'[0] + Weave(g'[1..], t'[1..]);
    }
  }

  /** One step of splitting: whitespace `lead`, then token `tok`, then a `rest` that is empty or starts with whitespace. */
  lemma SplitStep(lead: string, tok: string, rest: string)
    requires AllWhitespace(lead) && IsToken(tok)
    requires rest == [] || IsWhitespace(rest[0])
    ensures SplitWhitespace(lead + tok + rest) == [tok] + SplitWhitespace(rest)
  {
    var s := lead + tok + rest;
    var k := |lead|;
    assert s[k] == tok[0];
    LeadingWhitespaceUnique(s, k);
    assert s[k..] == tok + rest;
    TokenEndUnique(tok + rest, |tok|);
    assert s[k..k + |tok|] == tok;
    assert s[k + |tok|..] == rest;
  }

  /** Splitting recovers the tokens of any well-formed layout. */
  lemma {:induction false} SplitWeave(gaps: seq<string>, toks: seq<string>)
    requires WellFormedLayout(gaps, toks)
    ensures SplitWhitespace(Weave(gaps, toks)) == toks
    decreases |toks|
  {
    if toks == [] {
      LeadingWhitespaceUnique(gaps[0], |gaps[0]|);
    } else {
      var rest := Weave(gaps[1..], toks[1..]);
      RestStartsWithGap(gaps, toks);
      SplitStep(gaps[0], toks[0], rest);
      assert WellFormedLayout(gaps[1..], toks[1..]) by {
        forall i | 0 < i < |toks[1..]| ensures |gaps[1..][i]| > 0 {
          assert gaps[1..][i] == gaps[i + 1];
        }
      }
      SplitWeave(gaps[1..], toks[1..]);
    }
  }

  /** The whitespace runs of a string, around and between its tokens. */
  function Gaps(s: string): (r: seq<string>)
    decreases |s|
  {
    var k := LeadingWhitespace(s);
    if k == |s| then [s]
    else [s[..k]] + Gaps(s[k + TokenEnd(s[k..])..])
  }

  /** Prefixing a gap and a token to a well-formed layout keeps it well formed. */
  lemma LayoutCons(lead: string, tok: string, gaps: seq<string>, toks: seq<string>)
    requires AllWhitespace(lead) && IsToken(tok)
    requires WellFormedLayout(gaps, toks)
    requires toks != [] ==> |gaps[0]| > 0
    ensures WellFormedLayout([lead] + gaps, [tok] + toks)
    ensures Weave([lead] + gaps, [tok] + toks) == lead + tok + Weave(gaps, toks)
  {
    var g, t := [lead] + gaps, [tok] + toks;
    assert g[1..] == gaps && t[1..] == toks;
    forall i | 0 < i < |t| ensures |g[i]| > 0 {
      assert g[i] == gaps[i - 1];
    }
    forall i | 0 <= i < |g| ensures AllWhitespace(g[i]) {
      if i > 0 {
        assert g[i] == gaps[i - 1];
      }
    }
    forall i | 0 <= i < |t| ensures IsToken(t[i]) {
      if i > 0 {
        assert t[i] == toks[i - 1];
      }
    }
  }

  /** The first gap and token of a string that is not all whitespace, and the text after them. */
  lemma SplitUnfold(s: string) returns (lead: string, tok: string, rest: string)
    requires LeadingWhitespace(s) < |s|
    ensures s == lead + tok + rest && |lead| == LeadingWhitespace(s) && |rest| < |s|
    ensures AllWhitespace(lead) && IsToken(tok) && (rest == [] || IsWhitespace(rest[0]))
    ensures Gaps(s) == [lead] + Gaps(rest)
    ensures SplitWhitespace(s) == [tok] + SplitWhitespace(rest)
  {
    var k := LeadingWhitespace(s);
    var n := TokenEnd(s[k..]);
    lead, tok, rest := s[..k], s[k..k + n], s[k + n..];
    assert s == lead + tok + rest;
    assert AllWhitespace(lead) by {
      LeadingWhitespaceRun(s);
    }
    assert IsToken(tok) by {
      var u := s[k..];
      TokenEndRun(u);
      assert u[0] == s[k];
      assert n > 0;
      forall i | 0 <= i < n ensures !IsWhitespace(tok[i]) {
        assert tok[i] == u[i];
      }
    }
  }

  /** With `SplitWhitespace(s)`, the gaps of `s` form a well-formed layout of `s`. */
  lemma {:induction false} GapsLayout(s: string)
    ensures WellFormedLayout(Gaps(s), SplitWhitespace(s))
    ensures Weave(Gaps(s), SplitWhitespace(s)) == s
    ensures |s| > 0 && IsWhitespace(s[0]) ==> |Gaps(s)[0]| > 0
    decreases |s|
  {
    if LeadingWhitespace(s) < |s| {
      var lead, tok, rest := SplitUnfold(s);
      GapsLayout(rest);
      LayoutCons(lead, tok, Gaps(rest), SplitWhitespace(rest));
    } else {
      LeadingWhitespaceRun(s);
    }
  }

  /** Splitting is the inverse of weaving: the tokens of `s` are exactly the tokens of some layout of `s`. */
  lemma SplitIffLayout(s: string, toks: seq<string>)
    ensures SplitWhitespace(s) == toks <==> exists gaps :: WellFormedLayout(gaps, toks) && Weave(gaps, toks) == s
  {
    if SplitWhitespace(s) == toks {
      GapsLayout(s);
      var g := Gaps(s);
      assert WellFormedLayout(g, toks) && Weave(g, toks) == s;
    }
    if gaps :| WellFormedLayout(gaps, toks) && Weave(gaps, toks) == s {
      SplitWeave(gaps, toks);
    }
  }

  // ---------------------------------------------------------------------
  // Trimming does not change the tokens

  /** An all-whitespace string has no token. */
  lemma SplitAllWhitespace(s: string)
    requires AllWhitespace(s)
    ensures SplitWhitespace(s) == []
  {
    LeadingWhitespaceUnique(s, |s|);
  }

  /** The split step of `s`, carried over to `s + w` when `w` is whitespace. */
  lemma SplitStepAppend(s: string, lead: string, tok: string, rest: string, w: string)
    requires s == lead + tok + rest
    requires AllWhitespace(lead) && IsToken(tok) && (rest == [] || IsWhitespace(rest[0])) && AllWhitespace(w)
    ensures SplitWhitespace(s + w) == [tok] + SplitWhitespace(rest + w)
  {
    assert s + w == lead + tok + (rest + w);
    assert rest + w == [] || IsWhitespace((rest + w)[0]);
    SplitStep(lead, tok, rest + w);
  }

  /** Trailing whitespace adds no token. */
  lemma {:induction false} SplitAppendWhitespace(s: string, w: string)
    requires AllWhitespace(w)
    ensures SplitWhitespace(s + w) == SplitWhitespace(s)
    decreases |s|
  {
    if LeadingWhitespace(s) == |s| {
      LeadingWhitespaceRun(s);
      assert AllWhitespace(s + w);
      SplitAllWhitespace(s + w);
      SplitAllWhitespace(s);
    } else {
      var lead, tok, rest := SplitUnfold(s);
      SplitStepAppend(s, lead, tok, rest, w);
      SplitAppendWhitespace(rest, w);
    }
  }

  /** Leading whitespace adds no token. */
  lemma SplitTrimStart(s: string)
    ensures SplitWhitespace(TrimStart(s)) == SplitWhitespace(s)
  {
    if LeadingWhitespace(s) < |s| {
      var lead, tok, rest := SplitUnfold(s);
      assert TrimStart(s) == [] + tok + rest;
      SplitStep([], tok, rest);
    }
  }

  /** `split_whitespace` already ignores leading and trailing whitespace, so `trim` before it changes nothing. */
  lemma SplitTrim(s: string)
    ensures SplitWhitespace(Trim(s)) == SplitWhitespace(s)
  {
    var u := TrimStart(s);
    var j := TrailingWhitespace(u);
    assert u == u[..j] + u[j..];
    assert AllWhitespace(u[j..]) by {
      TrailingWhitespaceRun(u);
    }
    SplitTrimStart(s);
    SplitAppendWhitespace(u[..j], u[j..]);
  }
}
