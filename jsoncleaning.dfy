/**
 * `cleanJsonResponse`, the normaliser every backend pipeline applies to a
 * language model's reply before `JSON.parse`. The three copies in the
 * recommendation, roadmap and job-search services are textually identical,
 * so one definition models all three.
 *
 * The JavaScript steps, in order:
 *   1. `/^```json\s*\/i`  — a leading fence with a case-insensitive `json` label
 *                           and the whitespace after it;
 *   2. `/^```\s*\/i`      — a leading bare fence and the whitespace after it;
 *   3. `/```$/g`          — a fence at the very end of the text (no `m` flag,
 *                           so `$` is the end of input only, and this runs
 *                           before trimming);
 *   4. `trim()`;
 *   5. the span from the first `{` to the last `}`, when the last `}` comes
 *      after the first `{`.
 */
module JsonCleaning {
  import opened Js

  /** The three backticks of a Markdown code fence. */
  const Fence: string := "```"

  /** The label `json` matched case-insensitively (only ASCII letters fold to it). */
  predicate IsJsonLabel(s: string) {
    |s| == 4
    && (s[0] == 'j' || s[0] == 'J') && (s[1] == 's' || s[1] == 'S')
    && (s[2] == 'o' || s[2] == 'O') && (s[3] == 'n' || s[3] == 'N')
  }

  /** Step 1: `replace(/^```json\s*\/i, "")`. */
  function StripJsonFence(s: string): string {
    if |s| >= 7 && s[..3] == Fence && IsJsonLabel(s[3..7]) then TrimStart(s[7..]) else s
  }

  /** Step 2: `replace(/^```\s*\/i, "")`. */
  function StripPlainFence(s: string): string {
    if StartsWith(s, Fence) then TrimStart(s[3..]) else s
  }

  /** Step 3: `replace(/```$/g, "")`. */
  function StripTrailingFence(s: string): string {
    if EndsWith(s, Fence) then s[..|s| - 3] else s
  }

  /** Steps 3 and 4. */
  function StripTail(s: string): string {
    Trim(StripTrailingFence(s))
  }

  /** Steps 2 to 4. */
  function StripRest(s: string): string {
    StripTail(StripPlainFence(s))
  }

  /** Steps 1 to 4: the fence-stripped, trimmed text. */
  function StripFences(text: string): string {
    StripRest(StripJsonFence(text))
  }

  /** `s` starts with `{` and ends with `}`. */
  predicate Braced(s: string) {
    |s| >= 2 && s[0] == '{' && s[|s| - 1] == '}'
  }

  /** Some `{` comes before some `}` in `t`. */
  predicate HasBracePair(t: string) {
    exists i, j :: 0 <= i < j < |t| && t[i] == '{' && t[j] == '}'
  }

  /** Step 5: the span from the first `{` to the last `}`, if the last comes after the first. */
  function ExtractBraces(t: string): (r: string)
    ensures |r| <= |t|
  {
    var first := IndexOf(t, '{');
    var last := LastIndexOf(t, '}');
    if first != -1 && last != -1 && last > first then t[first..last + 1] else t
  }

  /** `cleanJsonResponse(text)`. */
  function CleanJsonResponse(text: string): (r: string)
    ensures |r| <= |text|
  {
    StripFencesShorter(text);
    ExtractBraces(StripFences(text))
  }

  // ---------------------------------------------------------------------
  // Contiguity

  /** `r` occurs in `s` at offset `k`, compared character by character. */
  predicate SliceAt(r: string, s: string, k: nat)
    decreases |r|
  {
    if r == [] then k <= |s| else k < |s| && s[k] == r[0] && SliceAt(r[1..], s, k + 1)
  }

  /** `SliceAt` is equality with the slice of `s` that starts at `k`. */
  lemma {:induction false} SliceAtIff(r: string, s: string, k: nat)
    ensures SliceAt(r, s, k) <==> k + |r| <= |s| && s[k..k + |r|] == r
    decreases |r|
  {
    if r != [] {
      SliceAtIff(r[1..], s, k + 1);
      if k + |r| <= |s| {
        assert s[k..k + |r|] == [s[k]] + s[k + 1..k + 1 + |r[1..]|];
        assert r == [r[0]] + r[1..];
      }
    }
  }

  lemma SliceAtTrans(r: string, m: string, s: string, j: nat, i: nat)
    requires SliceAt(r, m, j) && SliceAt(m, s, i)
    ensures SliceAt(r, s, i + j)
  {
    SliceAtIff(r, m, j);
    SliceAtIff(m, s, i);
    SliceAtIff(r, s, i + j);
    forall n | 0 <= n < |r| ensures s[i + j..i + j + |r|][n] == r[n] {
      assert r[n] == m[j + n] == s[i + j + n];
    }
  }

  lemma TrimStartIsSlice(s: string)
    ensures SliceAt(TrimStart(s), s, LeadingSpaces(s))
  {
    SliceAtIff(TrimStart(s), s, LeadingSpaces(s));
  }

  lemma TrimSliceAt(s: string)
    ensures SliceAt(Trim(s), s, LeadingSpaces(s))
  {
    TrimIsSlice(s);
    SliceAtIff(Trim(s), s, LeadingSpaces(s));
  }

  lemma SuffixIsSlice(s: string, n: nat)
    requires n <= |s|
    ensures SliceAt(s[n..], s, n)
  {
    SliceAtIff(s[n..], s, n);
  }

  lemma JsonFenceIsSlice(s: string) returns (k: nat)
    ensures SliceAt(StripJsonFence(s), s, k)
  {
    if |s| >= 7 && s[..3] == Fence && IsJsonLabel(s[3..7]) {
      TrimStartIsSlice(s[7..]);
      SuffixIsSlice(s, 7);
      SliceAtTrans(TrimStart(s[7..]), s[7..], s, LeadingSpaces(s[7..]), 7);
      k := 7 + LeadingSpaces(s[7..]);
    } else {
      k := 0;
      SliceAtIff(s, s, 0);
    }
  }

  lemma PlainFenceIsSlice(s: string) returns (k: nat)
    ensures SliceAt(StripPlainFence(s), s, k)
  {
    if StartsWith(s, Fence) {
      TrimStartIsSlice(s[3..]);
      SuffixIsSlice(s, 3);
      SliceAtTrans(TrimStart(s[3..]), s[3..], s, LeadingSpaces(s[3..]), 3);
      k := 3 + LeadingSpaces(s[3..]);
    } else {
      k := 0;
      SliceAtIff(s, s, 0);
    }
  }

  lemma TrailingFenceIsSlice(s: string)
    ensures SliceAt(StripTrailingFence(s), s, 0)
  {
    SliceAtIff(StripTrailingFence(s), s, 0);
  }

  /** Steps 3 and 4 keep a contiguous piece of their input. */
  lemma TailIsSlice(s: string) returns (k: nat)
    ensures SliceAt(StripTail(s), s, k)
  {
    var s3 := StripTrailingFence(s);
    TrailingFenceIsSlice(s);
    TrimSliceAt(s3);
    SliceAtTrans(Trim(s3), s3, s, LeadingSpaces(s3), 0);
    k := LeadingSpaces(s3);
  }

  lemma StripRestIsSlice(s: string) returns (k: nat)
    ensures SliceAt(StripRest(s), s, k)
  {
    var s2 := StripPlainFence(s);
    var k2 := PlainFenceIsSlice(s);
    var k3 := TailIsSlice(s2);
    SliceAtTrans(StripTail(s2), s2, s, k3, k2);
    k := k2 + k3;
  }

  lemma StripFencesIsSlice(text: string) returns (k: nat)
    ensures SliceAt(StripFences(text), text, k)
  {
    var s1 := StripJsonFence(text);
    var k1 := JsonFenceIsSlice(text);
    var k2 := StripRestIsSlice(s1);
    SliceAtTrans(StripFences(text), s1, text, k2, k1);
    k := k1 + k2;
  }

  lemma StripFencesShorter(text: string)
    ensures |StripFences(text)| <= |text|
  {
    var k := StripFencesIsSlice(text);
    SliceAtIff(StripFences(text), text, k);
  }

  lemma ExtractIsSlice(t: string) returns (k: nat)
    ensures SliceAt(ExtractBraces(t), t, k)
  {
    var first := IndexOf(t, '{');
    var last := LastIndexOf(t, '}');
    k := if first != -1 && last != -1 && last > first then first else 0;
    SliceAtIff(ExtractBraces(t), t, k);
  }

  /** The cleaned reply is a contiguous piece of the model's text. */
  lemma CleanIsSlice(text: string)
    ensures exists k: nat :: SliceAt(CleanJsonResponse(text), text, k)
  {
    var t := StripFences(text);
    var k := StripFencesIsSlice(text);
    var j := ExtractIsSlice(t);
    var r := ExtractBraces(t);
    SliceAtTrans(r, t, text, j, k);
    assert r == CleanJsonResponse(text);
    assert SliceAt(r, text, k + j);
  }

  // ---------------------------------------------------------------------
  // Brace extraction

  /** A `{` before a `}` puts the first `{` before the last `}`. */
  lemma PairBounds(t: string)
    requires HasBracePair(t)
    ensures 0 <= IndexOf(t, '{') < LastIndexOf(t, '}')
  {
    var i, j :| 0 <= i < j < |t| && t[i] == '{' && t[j] == '}';
    IndexOfFirst(t, '{');
    LastIndexOfLast(t, '}');
    assert t[i] in t && t[j] in t;
    var f, l := IndexOf(t, '{'), LastIndexOf(t, '}');
    InPrefix(t, i, f);
    InSuffix(t, j, l + 1);
  }

  lemma SpanEnds(r: string, t: string, f: nat, l: nat)
    requires f < l < |t| && t[f] == '{' && t[l] == '}' && r == t[f..l + 1]
    ensures Braced(r)
  {
  }

  lemma SpanCut(r: string, t: string, f: nat, l: nat)
    requires f < l < |t| && '{' !in t[..f] && '}' !in t[l + 1..] && r == t[f..l + 1]
    ensures f + |r| <= |t| && r == t[f..f + |r|] && '{' !in t[..f] && '}' !in t[f + |r|..]
  {
    assert f + |r| == l + 1;
  }

  /** When some `{` precedes some `}`, the extraction is delimited by braces. */
  lemma BraceSpan(t: string)
    requires HasBracePair(t)
    ensures Braced(ExtractBraces(t))
  {
    PairBounds(t);
    var f := IndexOf(t, '{');
    var l := LastIndexOf(t, '}');
    assert ExtractBraces(t) == t[f..l + 1];
    IndexOfFirst(t, '{');
    LastIndexOfLast(t, '}');
    SpanEnds(ExtractBraces(t), t, f, l);
  }

  /** The same, for the cleaned reply. */
  lemma CleanBraced(text: string)
    requires HasBracePair(StripFences(text))
    ensures Braced(CleanJsonResponse(text))
  {
    BraceSpan(StripFences(text));
    assert CleanJsonResponse(text) == ExtractBraces(StripFences(text));
  }

  /**
   * When some `{` precedes some `}`, the extraction is the span that
   * starts at the first `{`: what is cut off in front holds no `{` and
   * what is cut off behind holds no `}`.
   */
  lemma BraceCut(t: string)
    requires HasBracePair(t)
    ensures var r, f := ExtractBraces(t), IndexOf(t, '{');
            0 <= f && f + |r| <= |t| && r == t[f..f + |r|]
            && '{' !in t[..f] && '}' !in t[f + |r|..]
  {
    PairBounds(t);
    var f := IndexOf(t, '{');
    var l := LastIndexOf(t, '}');
    assert ExtractBraces(t) == t[f..l + 1];
    IndexOfFirst(t, '{');
    LastIndexOfLast(t, '}');
    SpanCut(ExtractBraces(t), t, f, l);
  }

  /** Indices that `indexOf` and `lastIndexOf` return in the right order witness a brace pair. */
  lemma IndicesGivePair(t: string)
    ensures var f, l := IndexOf(t, '{'), LastIndexOf(t, '}');
            f != -1 && l != -1 && l > f ==> HasBracePair(t)
  {
    IndexOfFirst(t, '{');
    LastIndexOfLast(t, '}');
  }

  /** Without a `{` before a `}` the extraction returns its input: the result is the fence-stripped, trimmed text. */
  lemma NoBracePair(t: string)
    requires !HasBracePair(t)
    ensures ExtractBraces(t) == t
  {
    IndicesGivePair(t);
  }

  /** Text that already starts with `{` and ends with `}` passes through every step unchanged. */
  lemma BraceDelimitedFixed(s: string)
    requires Braced(s)
    ensures StripFences(s) == s
    ensures ExtractBraces(s) == s
    ensures CleanJsonResponse(s) == s
  {
    assert StripJsonFence(s) == s;
    assert StripPlainFence(s) == s;
    assert StripTrailingFence(s) == s;
    TrimNoSpaces(s);
    IndexOfAt(s, '{', 0);
    LastIndexOfAt(s, '}', |s| - 1);
  }

  /** Cleaning a reply whose brace extraction applied changes nothing more. */
  lemma CleanIdempotentOnBraces(text: string)
    requires HasBracePair(StripFences(text))
    ensures CleanJsonResponse(CleanJsonResponse(text)) == CleanJsonResponse(text)
  {
    CleanBraced(text);
    BraceDelimitedFixed(CleanJsonResponse(text));
  }

  // ---------------------------------------------------------------------
  // Fenced replies

  lemma JsonFenceStep(x: string)
    requires x != [] && !IsSpace(x[0])
    ensures StripJsonFence("```json\n" + x) == x
  {
    var s := "```json\n" + x;
    assert s[..3] == Fence && s[3..7] == "json";
    var n := "\n" + x;
    assert s[7..] == n;
    assert SpacesFrom(n, 1) == 1 && SpacesFrom(n, 0) == 1;
    assert n[1..] == x;
  }

  lemma NoLeadingFence(s: string)
    requires s != [] && s[0] != '`'
    ensures StripPlainFence(s) == s
  {
  }

  lemma TrailingFenceStep(x: string)
    ensures StripTrailingFence(x + Fence) == x
  {
    assert (x + Fence)[|x|..] == Fence;
  }

  lemma TrimTrailingNewline(x: string)
    requires x != [] && !IsSpace(x[0]) && !IsSpace(x[|x| - 1])
    ensures Trim(x + "\n") == x
  {
    var s := x + "\n";
    assert s[..|s| - 1] == x;
    assert SpacesFrom(s, 0) == 0;
    assert TrimStart(s) == s;
    assert SpacesBefore(s, |s| - 1) == |s| - 1;
  }

  /** Steps 2 to 4 on an object followed by a closing fence on its own line. */
  lemma RestOfFenced(j: string)
    requires Braced(j)
    ensures StripRest(j + "\n```") == j
  {
    var s1 := j + "\n```";
    NoLeadingFence(s1);
    assert s1 == (j + "\n") + Fence;
    TrailingFenceStep(j + "\n");
    TrimTrailingNewline(j);
  }

  /** A reply fenced as a `json` code block comes out as the object inside it. */
  lemma JsonFenceRemoved(j: string)
    requires Braced(j)
    ensures CleanJsonResponse("```json\n" + j + "\n```") == j
  {
    var text := "```json\n" + j + "\n```";
    var s1 := j + "\n```";
    assert text == "```json\n" + s1;
    JsonFenceStep(s1);
    RestOfFenced(j);
    assert StripFences(text) == j;
    BraceDelimitedFixed(j);
  }

  lemma TrimNoTrailingFence(j: string)
    requires Braced(j)
    ensures StripTrailingFence(j + "\n```\n") == j + "\n```\n"
    ensures Trim(j + "\n```\n") == j + "\n```"
  {
    var t := j + "\n```";
    assert t + "\n" == j + "\n```\n";
    TrimTrailingNewline(t);
  }

  lemma ExtractBeforeFence(j: string)
    requires Braced(j)
    ensures ExtractBraces(j + "\n```") == j
  {
    var t := j + "\n```";
    var f := IndexOf(t, '{');
    var l := LastIndexOf(t, '}');
    assert t[..|j|] == j;
    IndexOfAt(t, '{', 0);
    assert t[|j|..] == "\n```";
    LastIndexOfAt(t, '}', |j| - 1);
  }

  /**
   * A line break after the closing fence keeps `/```$/` from matching, so
   * the fence survives trimming; the brace extraction still cuts the object out.
   */
  lemma FenceBeforeNewlineKept(j: string)
    requires Braced(j)
    ensures StripFences("```json\n" + j + "\n```\n") == j + "\n```"
    ensures CleanJsonResponse("```json\n" + j + "\n```\n") == j
  {
    var text := "```json\n" + j + "\n```\n";
    var s1 := j + "\n```\n";
    assert text == "```json\n" + s1;
    JsonFenceStep(s1);
    NoLeadingFence(s1);
    TrimNoTrailingFence(j);
    assert StripFences(text) == j + "\n```";
    ExtractBeforeFence(j);
  }
}
