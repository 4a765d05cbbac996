/**
 * The small part of JavaScript's value and string semantics that the
 * modelled code relies on: JSON values as `JSON.parse` produces them,
 * truthiness, property reads, and the `String.prototype` methods
 * `trim`, `indexOf`, `lastIndexOf`, `split` and `Array.prototype.join`.
 *
 * Strings are sequences of Unicode scalar values; where JavaScript counts
 * UTF-16 code units (`length`), `Utf16Length` says so explicitly.
 */
module Js {
  import opened Wrappers

  /** A JSON value. Numbers are restricted to integers. */
  datatype Json =
    | JNull
    | JBool(b: bool)
    | JNum(n: int)
    | JStr(s: string)
    | JArr(items: seq<Json>)
    | JObj(fields: map<string, Json>)

  /** JavaScript truthiness of a JSON value. */
  predicate Truthy(v: Json) {
    match v
    case JNull => false
    case JBool(b) => b
    case JNum(n) => n != 0
    case JStr(s) => s != ""
    case _ => true
  }

  /**
   * The property read `v.key`: a TypeError on null, `undefined` (None)
   * for a key the value does not have. Primitives and arrays have none of
   * the keys the modelled code reads.
   */
  function Get(v: Json, key: string): (r: Result<Option<Json>>)
    ensures r.Err? <==> v.JNull?
    ensures r.Ok? && r.value.Some? <==> v.JObj? && key in v.fields
    ensures r.Ok? && r.value.Some? ==> r.value.value == v.fields[key]
  {
    match v
    case JNull => Err(TypeError)
    case JObj(m) => if key in m then Ok(Some(m[key])) else Ok(None)
    case _ => Ok(None)
  }

  // ---------------------------------------------------------------------
  // Whitespace and trim

  /** The characters `\s` matches and `trim` removes (WhiteSpace and LineTerminator). */
  predicate IsSpace(c: char) {
    var x := c as int;
    x == 0x09 || x == 0x0A || x == 0x0B || x == 0x0C || x == 0x0D || x == 0x20
    || x == 0xA0 || x == 0x1680 || (0x2000 <= x <= 0x200A) || x == 0x2028
    || x == 0x2029 || x == 0x202F || x == 0x205F || x == 0x3000 || x == 0xFEFF
  }

  /** The end of the run of whitespace in `s` that starts at `i`. */
  function SpacesFrom(s: string, i: nat): (j: nat)
    requires i <= |s|
    ensures i <= j <= |s|
    decreases |s| - i
  {
    if i < |s| && IsSpace(s[i]) then SpacesFrom(s, i + 1) else i
  }

  lemma {:induction false} SpacesFromRun(s: string, i: nat)
    requires i <= |s|
    ensures var j := SpacesFrom(s, i);
            (forall k :: i <= k < j ==> IsSpace(s[k])) && (j == |s| || !IsSpace(s[j]))
    decreases |s| - i
  {
    if i < |s| && IsSpace(s[i]) {
      SpacesFromRun(s, i + 1);
    }
  }

  /** The start of the run of whitespace in `s` that ends just before `i`. */
  function SpacesBefore(s: string, i: nat): (j: nat)
    requires i <= |s|
    ensures j <= i
    decreases i
  {
    if i > 0 && IsSpace(s[i - 1]) then SpacesBefore(s, i - 1) else i
  }

  lemma {:induction false} SpacesBeforeRun(s: string, i: nat)
    requires i <= |s|
    ensures var j := SpacesBefore(s, i);
            (forall k :: j <= k < i ==> IsSpace(s[k])) && (j == 0 || !IsSpace(s[j - 1]))
    decreases i
  {
    if i > 0 && IsSpace(s[i - 1]) {
      SpacesBeforeRun(s, i - 1);
    }
  }

  /** Number of whitespace characters at the front of `s`. */
  function LeadingSpaces(s: string): (n: nat)
    ensures n <= |s|
  {
    SpacesFrom(s, 0)
  }

  /** Number of whitespace characters at the end of `s`. */
  function TrailingSpaces(s: string): (n: nat)
    ensures n <= |s|
  {
    |s| - SpacesBefore(s, |s|)
  }

  /** The greedy `^\s*` removal. */
  function TrimStart(s: string): string {
    s[LeadingSpaces(s)..]
  }

  /** `String.prototype.trim`. */
  function Trim(s: string): (r: string)
    ensures |r| <= |s|
  {
    var t := TrimStart(s);
    t[..|t| - TrailingSpaces(t)]
  }

  /** What `Trim` removes is whitespace, and what it keeps neither starts nor ends with any. */
  lemma TrimIsSlice(s: string)
    ensures LeadingSpaces(s) + |Trim(s)| <= |s|
    ensures Trim(s) == s[LeadingSpaces(s)..LeadingSpaces(s) + |Trim(s)|]
    ensures forall i :: 0 <= i < LeadingSpaces(s) ==> IsSpace(s[i])
    ensures forall i :: LeadingSpaces(s) + |Trim(s)| <= i < |s| ==> IsSpace(s[i])
    ensures Trim(s) == [] || (!IsSpace(Trim(s)[0]) && !IsSpace(Trim(s)[|Trim(s)| - 1]))
  {
    var n := LeadingSpaces(s);
    var t := TrimStart(s);
    SpacesFromRun(s, 0);
    SpacesBeforeRun(t, |t|);
    var m := SpacesBefore(t, |t|);
    assert Trim(s) == t[..m];
    forall i | n + m <= i < |s| ensures IsSpace(s[i]) {
      assert s[i] == t[i - n];
    }
    if m > 0 {
      assert Trim(s)[0] == s[n];
      assert Trim(s)[m - 1] == t[m - 1];
    }
  }

  /** Trimming text that neither starts nor ends with whitespace changes nothing. */
  lemma TrimNoSpaces(s: string)
    requires s == [] || (!IsSpace(s[0]) && !IsSpace(s[|s| - 1]))
    ensures Trim(s) == s
  {
    if s != [] {
      assert LeadingSpaces(s) == 0;
      assert TrimStart(s) == s;
      assert SpacesBefore(s, |s|) == |s|;
    }
  }

  // ---------------------------------------------------------------------
  // Prefixes, suffixes and search

  predicate StartsWith(s: string, p: string) {
    |p| <= |s| && s[..|p|] == p
  }

  predicate EndsWith(s: string, p: string) {
    |p| <= |s| && s[|s| - |p|..] == p
  }

  /** `s.indexOf(c)`: the first index holding `c`, or -1. */
  function IndexOf(s: string, c: char): (r: int)
    ensures -1 <= r < |s|
  {
    IndexFrom(s, c, 0)
  }

  function IndexFrom(s: string, c: char, i: nat): (r: int)
    requires i <= |s|
    ensures r == -1 || i <= r < |s|
    decreases |s| - i
  {
    if i == |s| then -1
    else if s[i] == c then i
    else IndexFrom(s, c, i + 1)
  }

  lemma {:induction false} IndexFromFirst(s: string, c: char, i: nat)
    requires i <= |s|
    ensures var r := IndexFrom(s, c, i);
            (r == -1 <==> c !in s[i..]) && (r != -1 ==> s[r] == c && c !in s[i..r])
    decreases |s| - i
  {
    if i < |s| && s[i] != c {
      IndexFromFirst(s, c, i + 1);
      var k := IndexFrom(s, c, i + 1);
      assert s[i..] == [s[i]] + s[i + 1..];
      if k != -1 {
        assert s[i..k] == [s[i]] + s[i + 1..k];
      }
    }
  }

  /** `indexOf` finds the first occurrence, and -1 exactly when there is none. */
  lemma IndexOfFirst(s: string, c: char)
    ensures IndexOf(s, c) == -1 <==> c !in s
    ensures IndexOf(s, c) != -1 ==> s[IndexOf(s, c)] == c && c !in s[..IndexOf(s, c)]
  {
    IndexFromFirst(s, c, 0);
    assert s[0..] == s;
  }

  /** What sits before position `k` is in the prefix of length `k`. */
  lemma InPrefix(s: string, i: int, k: nat)
    requires k <= |s|
    ensures 0 <= i < k ==> s[i] in s[..k]
  {
    if 0 <= i < k { assert s[..k][i] == s[i]; }
  }

  /** What sits at or after position `k` is in the suffix from `k`. */
  lemma InSuffix(s: string, i: int, k: nat)
    requires k <= |s|
    ensures k <= i < |s| ==> s[i] in s[k..]
  {
    if k <= i < |s| { assert s[k..][i - k] == s[i]; }
  }

  /** A position holding `c` with no `c` before it is what `indexOf` finds. */
  lemma IndexOfAt(s: string, c: char, k: nat)
    requires k < |s| && s[k] == c && c !in s[..k]
    ensures IndexOf(s, c) == k
  {
    IndexOfFirst(s, c);
    var r := IndexOf(s, c);
    assert s[k] in s;
    InPrefix(s, r, k);
    InPrefix(s, k, if r < 0 then 0 else r);
  }

  /** `s.lastIndexOf(c)`: the last index holding `c`, or -1. */
  function LastIndexOf(s: string, c: char): (r: int)
    ensures -1 <= r < |s|
  {
    LastIndexBelow(s, c, |s|)
  }

  function LastIndexBelow(s: string, c: char, i: nat): (r: int)
    requires i <= |s|
    ensures -1 <= r < i
    decreases i
  {
    if i == 0 then -1
    else if s[i - 1] == c then i - 1
    else LastIndexBelow(s, c, i - 1)
  }

  lemma {:induction false} LastIndexBelowLast(s: string, c: char, i: nat)
    requires i <= |s|
    ensures var r := LastIndexBelow(s, c, i);
            (r == -1 <==> c !in s[..i]) && (r != -1 ==> s[r] == c && c !in s[r + 1..i])
    decreases i
  {
    if i > 0 && s[i - 1] != c {
      LastIndexBelowLast(s, c, i - 1);
      var k := LastIndexBelow(s, c, i - 1);
      assert s[..i] == s[..i - 1] + [s[i - 1]];
      if k != -1 {
        assert s[k + 1..i] == s[k + 1..i - 1] + [s[i - 1]];
      }
    }
  }

  /** `lastIndexOf` finds the last occurrence, and -1 exactly when there is none. */
  lemma LastIndexOfLast(s: string, c: char)
    ensures LastIndexOf(s, c) == -1 <==> c !in s
    ensures LastIndexOf(s, c) != -1 ==> s[LastIndexOf(s, c)] == c && c !in s[LastIndexOf(s, c) + 1..]
  {
    LastIndexBelowLast(s, c, |s|);
    assert s[..|s|] == s;
  }

  /** A position holding `c` with no `c` after it is what `lastIndexOf` finds. */
  lemma LastIndexOfAt(s: string, c: char, k: nat)
    requires k < |s| && s[k] == c && c !in s[k + 1..]
    ensures LastIndexOf(s, c) == k
  {
    LastIndexOfLast(s, c);
    var r := LastIndexOf(s, c);
    assert s[k] in s;
    InSuffix(s, k, r + 1);
    InSuffix(s, r, k + 1);
  }

  // ---------------------------------------------------------------------
  // join and split

  /** `parts.join(sep)` for an array of strings. */
  function Join(parts: seq<string>, sep: string): string {
    if |parts| == 0 then ""
    else if |parts| == 1 then parts[0]
    else parts[0] + sep + Join(parts[1..], sep)
  }

  /** `s.split(c)` for a one-character separator. */
  function SplitOn(s: string, c: char): (r: seq<string>)
    ensures |r| >= 1
    ensures forall i :: 0 <= i < |r| ==> c !in r[i]
    decreases |s|
  {
    IndexOfFirst(s, c);
    var k := IndexOf(s, c);
    if k == -1 then [s] else [s[..k]] + SplitOn(s[k + 1..], c)
  }

  /** Joining the pieces of a split with the separator gives back the text. */
  lemma {:induction false} JoinSplit(s: string, c: char)
    ensures Join(SplitOn(s, c), [c]) == s
    decreases |s|
  {
    IndexOfFirst(s, c);
    var k := IndexOf(s, c);
    if k != -1 {
      var rest := SplitOn(s[k + 1..], c);
      JoinSplit(s[k + 1..], c);
      var pieces := [s[..k]] + rest;
      assert SplitOn(s, c) == pieces;
      assert pieces[0] == s[..k] && pieces[1..] == rest;
      assert Join(pieces, [c]) == s[..k] + [c] + Join(rest, [c]);
      assert s == s[..k] + [c] + s[k + 1..];
    }
  }

  /** Splitting a join of separator-free pieces gives back the pieces. */
  lemma {:induction false} SplitJoin(parts: seq<string>, c: char)
    requires |parts| >= 1
    requires forall i :: 0 <= i < |parts| ==> c !in parts[i]
    ensures SplitOn(Join(parts, [c]), c) == parts
    decreases |parts|
  {
    if |parts| > 1 {
      var s := Join(parts, [c]);
      assert s == parts[0] + [c] + Join(parts[1..], [c]);
      assert s[..|parts[0]|] == parts[0];
      assert s[|parts[0]|] == c;
      assert c !in s[..|parts[0]|];
      IndexOfAt(s, c, |parts[0]|);
      assert s[|parts[0]| + 1..] == Join(parts[1..], [c]);
      SplitJoin(parts[1..], c);
    } else {
      IndexOfFirst(parts[0], c);
      assert IndexOf(parts[0], c) == -1;
    }
  }

  // ---------------------------------------------------------------------
  // Lengths

  /** `s.length`: the number of UTF-16 code units. */
  function Utf16Length(s: string): (n: nat)
    ensures |s| <= n <= 2 * |s|
  {
    if s == [] then 0 else (if s[0] as int > 0xFFFF then 2 else 1) + Utf16Length(s[1..])
  }

  // ---------------------------------------------------------------------
  // Number formatting

  predicate IsDigit(c: char) {
    '0' as int <= c as int <= '9' as int
  }

  function DigitChar(d: nat): (c: char)
    requires d < 10
    ensures IsDigit(c)
  {
    ('0' as int + d) as char
  }

  /** The decimal rendering `String(n)` of a natural number. */
  function NatToString(n: nat): (r: string)
    ensures |r| >= 1
    ensures forall i :: 0 <= i < |r| ==> IsDigit(r[i])
    ensures r[0] == '0' ==> n == 0 && r == "0"
  {
    if n < 10 then [DigitChar(n)] else NatToString(n / 10) + [DigitChar(n % 10)]
  }

  /** The value of a string of decimal digits. */
  function DigitsValue(s: string): nat
    requires forall i :: 0 <= i < |s| ==> IsDigit(s[i])
  {
    if s == [] then 0
    else
      var c := s[|s| - 1];
      assert IsDigit(c);
      10 * DigitsValue(s[..|s| - 1]) + (c as int - '0' as int)
  }

  /** Reading back the decimal rendering gives the number, so the rendering is injective. */
  lemma {:induction false} NatToStringRoundTrip(n: nat)
    ensures DigitsValue(NatToString(n)) == n
  {
    if n >= 10 {
      NatToStringRoundTrip(n / 10);
      var s := NatToString(n);
      assert s[..|s| - 1] == NatToString(n / 10);
    }
  }

  /** The decimal rendering of an integer. */
  function IntToString(n: int): (r: string)
    ensures |r| >= 1
    ensures (r[0] == '-') <==> n < 0
  {
    if n < 0 then "-" + NatToString(-n) else NatToString(n)
  }

  // ---------------------------------------------------------------------
  // Stringification

  /** The string a template literal `${v}` makes of a JSON value. */
  function ToJsString(v: Json): string
    decreases v, 0
  {
    match v
    case JNull => "null"
    case JBool(b) => if b then "true" else "false"
    case JNum(n) => IntToString(n)
    case JStr(s) => s
    case JArr(items) => Join(seq(|items|, i requires 0 <= i < |items| => ElementString(items[i])), ",")
    case JObj(_) => "[object Object]"
  }

  /** How `Array.prototype.join` renders one element: null becomes the empty string. */
  function ElementString(v: Json): string
    decreases v, 1
  {
    if v.JNull? then "" else ToJsString(v)
  }

  /** `items.join(sep)` for an array of arbitrary JSON values. */
  function JoinValues(items: seq<Json>, sep: string): (r: string)
    ensures (forall i :: 0 <= i < |items| ==> items[i].JStr?) ==>
              r == Join(seq(|items|, i requires 0 <= i < |items| => items[i].s), sep)
  {
    var parts := seq(|items|, i requires 0 <= i < |items| => ElementString(items[i]));
    if forall i :: 0 <= i < |items| ==> items[i].JStr? then
      assert forall i :: 0 <= i < |items| ==> parts[i] == ElementString(items[i]) == items[i].s;
      assert parts == seq(|items|, i requires 0 <= i < |items| => items[i].s);
      Join(parts, sep)
    else
      Join(parts, sep)
  }
}
