/** The JavaScript string operations the two agent scripts use, over strings
    of Unicode scalar values. Every pattern the scripts search for is ASCII
    and every character `trim` removes lies in the Basic Multilingual Plane,
    so working on scalar values instead of UTF-16 code units gives the same
    results for these operations. */
module JsString {

  /** A JavaScript value that may be `undefined`. */
  datatype Option<T> = None | Some(value: T)

  /** `s.startsWith(p)` */
  predicate StartsWith(s: string, p: string) {
    |p| <= |s| && s[..|p|] == p
  }

  /** `p` occurs in `s` starting at index `k`. */
  predicate OccursAt(s: string, p: string, k: nat) {
    k + |p| <= |s| && s[k..k + |p|] == p
  }

  /** `s.indexOf(p, from)`, with `None` for -1: the first occurrence of `p`
      in `s` at or after `from`. */
  function IndexFrom(s: string, p: string, from: nat): (r: Option<nat>)
    ensures r.Some? ==> from <= r.value && OccursAt(s, p, r.value)
    ensures r.Some? ==> forall j :: from <= j < r.value ==> !OccursAt(s, p, j)
    ensures r.None? ==> forall j :: from <= j ==> !OccursAt(s, p, j)
    decreases |s| - from
  {
    if from + |p| > |s| then None
    else if s[from..from + |p|] == p then Some(from)
    else IndexFrom(s, p, from + 1)
  }

  /** `s.indexOf(p)`, with `None` for -1. */
  function IndexOf(s: string, p: string): Option<nat> {
    IndexFrom(s, p, 0)
  }

  /** `s.includes(p)`: the pattern occurs somewhere. */
  predicate Includes(s: string, p: string): (b: bool)
    ensures b <==> exists k: nat :: OccursAt(s, p, k)
  {
    IndexOf(s, p).Some?
  }

  /** `includes` holds exactly when the pattern occurs somewhere. */
  lemma IncludesAt(s: string, p: string, k: nat)
    requires OccursAt(s, p, k)
    ensures Includes(s, p) && IndexOf(s, p).value <= k
  {
  }

  /** A pattern found in the middle part of a concatenation is found in
      the whole. */
  lemma IncludesInside(a: string, b: string, c: string, p: string, j: nat)
    requires OccursAt(b, p, j)
    ensures Includes(a + b + c, p)
  {
    assert (a + b + c)[|a| + j..|a| + j + |p|] == b[j..j + |p|];
    IncludesAt(a + b + c, p, |a| + j);
  }

  /** `s.replace(pat, rep)` with a string pattern and a `rep` without `$`
      (JavaScript expands `$&`, `$1` and `$$` in a replacement): only the
      first occurrence is replaced, and nothing happens when there is none. */
  function ReplaceFirst(s: string, pat: string, rep: string): (r: string)
    ensures !Includes(s, pat) ==> r == s
    ensures Includes(s, pat) ==>
      var k := IndexOf(s, pat).value;
      |r| == |s| - |pat| + |rep| && r[..k] == s[..k] && r[k..k + |rep|] == rep && r[k + |rep|..] == s[k + |pat|..]
  {
    match IndexOf(s, pat)
    case None => s
    case Some(k) => s[..k] + rep + s[k + |pat|..]
  }

  /** Removing a prefix with `replace(p, '')` leaves the rest of the string,
      because the first occurrence of a prefix is at index 0. */
  lemma RemovePrefix(s: string, p: string)
    requires StartsWith(s, p)
    ensures ReplaceFirst(s, p, "") == s[|p|..]
  {
    assert OccursAt(s, p, 0);
  }

  /** `s.replace(/c/g, rep)` for a one-character regular expression and a
      `rep` without `$`: every occurrence of `c` becomes `rep`. */
  function ReplaceEach(s: string, c: char, rep: string): (r: string)
    ensures c !in rep ==> c !in r
    ensures |rep| == 1 ==> |r| == |s|
    ensures |rep| == 1 ==> forall i :: 0 <= i < |s| ==> r[i] == if s[i] == c then rep[0] else s[i]
    ensures c !in s ==> r == s
  {
    if s == [] then []
    else (if s[0] == c then rep else [s[0]]) + ReplaceEach(s[1..], c, rep)
  }

  /** The characters `String.prototype.trim` removes: the WhiteSpace and
      LineTerminator code points of the ECMAScript grammar (TAB, VT, FF,
      SPACE, NBSP, ZWNBSP, the space separators of Unicode category Zs,
      LF, CR, LS and PS). */
  predicate IsJsSpace(c: char) {
    var n := c as int;
    n == 0x09 || n == 0x0A || n == 0x0B || n == 0x0C || n == 0x0D || n == 0x20 ||
    n == 0xA0 || n == 0x1680 || (0x2000 <= n <= 0x200A) || n == 0x2028 || n == 0x2029 ||
    n == 0x202F || n == 0x205F || n == 0x3000 || n == 0xFEFF
  }

  /** `s.trimStart()`: the longest suffix of `s` that does not begin with
      white space. */
  function TrimStart(s: string): (r: string)
    ensures |r| <= |s| && r == s[|s| - |r|..]
    ensures r == [] || !IsJsSpace(r[0])
    ensures forall j :: 0 <= j < |s| - |r| ==> IsJsSpace(s[j])
  {
    if s != [] && IsJsSpace(s[0]) then TrimStart(s[1..]) else s
  }

  /** `s.trimEnd()`: the longest prefix of `s` that does not end with white
      space. */
  function TrimEnd(s: string): (r: string)
    ensures |r| <= |s| && r == s[..|r|]
    ensures r == [] || !IsJsSpace(r[|r| - 1])
    ensures forall j :: |r| <= j < |s| ==> IsJsSpace(s[j])
  {
    if s != [] && IsJsSpace(s[|s| - 1]) then TrimEnd(s[..|s| - 1]) else s
  }

  /** `s.trim()`: `s` without its leading and trailing white space. */
  function Trim(s: string): (r: string)
    ensures r == [] || (!IsJsSpace(r[0]) && !IsJsSpace(r[|r| - 1]))
    ensures var i := |s| - |TrimStart(s)|;
      i + |r| <= |s| && s[i..i + |r|] == r &&
      (forall j :: 0 <= j < i ==> IsJsSpace(s[j])) &&
      (forall j :: i + |r| <= j < |s| ==> IsJsSpace(s[j]))
  {
    var t := TrimStart(s);
    var r := TrimEnd(t);
    PrefixOfSuffix(s, |s| - |t|, r);
    r
  }

  /** A string with no white space at either end is its own trim. */
  lemma TrimUnchanged(s: string)
    requires s != [] && !IsJsSpace(s[0]) && !IsJsSpace(s[|s| - 1])
    ensures Trim(s) == s
  {
    assert TrimStart(s) == s;
    assert TrimEnd(s) == s;
  }

  /** A prefix `r` of the suffix of `s` from `i`, with only white space
      after it in that suffix, is the slice of `s` from `i` with only white
      space after it in `s`. */
  lemma PrefixOfSuffix(s: string, i: nat, r: string)
    requires i <= |s| && |r| <= |s| - i && s[i..][..|r|] == r
    requires forall j :: |r| <= j < |s| - i ==> IsJsSpace(s[i..][j])
    ensures s[i..i + |r|] == r
    ensures forall j :: i + |r| <= j < |s| ==> IsJsSpace(s[j])
  {
    assert s[i..i + |r|] == s[i..][..|r|];
    forall j | i + |r| <= j < |s|
      ensures IsJsSpace(s[j])
    {
      assert s[j] == s[i..][j - i];
    }
  }

  /** The result of `s.split(sep)` destructured as `const [first, second]`:
      the text before the first separator and the text between it and the
      next separator (or the end); `second` is `undefined` when `s` has no
      separator. */
  datatype Segments = Segments(first: string, second: Option<string>)

  function SplitTwo(s: string, sep: string): (r: Segments)
    requires sep != []
    ensures StartsWith(s, r.first)
    ensures r.second.None? <==> !Includes(s, sep)
    ensures r.second.None? ==> r.first == s
    ensures r.second.Some? ==>
      var start := |r.first| + |sep|;
      var end := start + |r.second.value|;
      IndexOf(s, sep) == Some(|r.first|) &&
      end <= |s| && s[|r.first|..start] == sep && s[start..end] == r.second.value &&
      (forall j :: start <= j < end ==> !OccursAt(s, sep, j)) &&
      (end == |s| || OccursAt(s, sep, end))
  {
    match IndexOf(s, sep)
    case None => Segments(s, None)
    case Some(k) =>
      var end := match IndexFrom(s, sep, k + |sep|) case None => |s| case Some(e) => e;
      Segments(s[..k], Some(s[k + |sep|..end]))
  }
}
