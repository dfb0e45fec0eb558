/**
 * The few java.lang.String operations the report engine relies on, written
 * over `seq<char>`: trim, startsWith/endsWith/contains, indexOf(char),
 * replace(CharSequence, CharSequence) and an ASCII toLowerCase.
 */
module JavaText {

  /** String.trim() removes every leading and trailing character whose code is at most U+0020. */
  predicate IsBlank(c: char) {
    c <= ' '
  }

  predicate AllBlank(s: string) {
    forall i :: 0 <= i < |s| ==> IsBlank(s[i])
  }

  /** `s` has no blank at either end (the trimmed form). */
  predicate IsTrimmed(s: string) {
    s != [] ==> !IsBlank(s[0]) && !IsBlank(s[|s| - 1])
  }

  /** How far trim()'s first loop advances: the number of leading blanks. */
  function LeadingBlanks(s: string): (n: nat)
    ensures n <= |s|
    ensures forall i :: 0 <= i < n ==> IsBlank(s[i])
    ensures n < |s| ==> !IsBlank(s[n])
  {
    if s != [] && IsBlank(s[0]) then 1 + LeadingBlanks(s[1..]) else 0
  }

  /** How far trim()'s second loop retreats: the number of trailing blanks. */
  function TrailingBlanks(s: string): (n: nat)
    ensures n <= |s|
    ensures forall i :: |s| - n <= i < |s| ==> IsBlank(s[i])
    ensures n < |s| ==> !IsBlank(s[|s| - 1 - n])
  {
    if s != [] && IsBlank(s[|s| - 1]) then 1 + TrailingBlanks(s[..|s| - 1]) else 0
  }

  /**
   * String.trim(): the infix of `s` between its leading and its trailing
   * blanks, empty when `s` is all blank. Only blanks are cut off, and the
   * result has none at either end.
   */
  function Trim(s: string): (r: string)
    ensures IsTrimmed(r)
    ensures LeadingBlanks(s) + |r| <= |s|
    ensures r == s[LeadingBlanks(s)..LeadingBlanks(s) + |r|]
    ensures AllBlank(s[..LeadingBlanks(s)]) && AllBlank(s[LeadingBlanks(s) + |r|..])
  {
    var st := LeadingBlanks(s);
    if st == |s| then []
    else
      var len := |s| - TrailingBlanks(s);
      assert st < len;
      s[st..len]
  }

  /** The leading blanks of blank padding followed by a non-blank start are the padding. */
  lemma {:induction false} LeadingBlanksOfPadded(pre: string, rest: string)
    requires AllBlank(pre)
    requires rest != [] ==> !IsBlank(rest[0])
    ensures LeadingBlanks(pre + rest) == |pre|
    decreases |pre|
  {
    if pre != [] {
      assert (pre + rest)[1..] == pre[1..] + rest;
      LeadingBlanksOfPadded(pre[1..], rest);
    } else {
      assert pre + rest == rest;
    }
  }

  /** The trailing blanks of a non-blank end followed by blank padding are the padding. */
  lemma {:induction false} TrailingBlanksOfPadded(rest: string, post: string)
    requires AllBlank(post)
    requires rest != [] ==> !IsBlank(rest[|rest| - 1])
    ensures TrailingBlanks(rest + post) == |post|
    decreases |post|
  {
    if post != [] {
      assert (rest + post)[..|rest + post| - 1] == rest + post[..|post| - 1];
      TrailingBlanksOfPadded(rest, post[..|post| - 1]);
    } else {
      assert rest + post == rest;
    }
  }

  /** Trimming text padded on both sides with blanks gives back the text. */
  lemma TrimOfPadded(pre: string, x: string, post: string)
    requires AllBlank(pre) && AllBlank(post) && IsTrimmed(x)
    ensures Trim(pre + x + post) == x
  {
    var s := pre + x + post;
    if x == [] {
      assert s == (pre + post) + [];
      LeadingBlanksOfPadded(pre + post, []);
    } else {
      assert s == pre + (x + post);
      LeadingBlanksOfPadded(pre, x + post);
      assert s == (pre + x) + post;
      TrailingBlanksOfPadded(pre + x, post);
      assert s[|pre|..|s| - |post|] == x;
    }
  }

  /** Trimming is idempotent. */
  lemma TrimIdempotent(s: string)
    ensures Trim(Trim(s)) == Trim(s)
  {
    var t := Trim(s);
    assert t == [] + t + [];
    TrimOfPadded([], t, []);
  }

  predicate StartsWith(s: string, prefix: string) {
    |prefix| <= |s| && s[..|prefix|] == prefix
  }

  predicate EndsWith(s: string, suffix: string) {
    |suffix| <= |s| && s[|s| - |suffix|..] == suffix
  }

  /** String.contains: `pattern` occurs in `s` at some offset. */
  predicate Contains(s: string, pattern: string)
    decreases |s|
  {
    StartsWith(s, pattern) || (s != [] && Contains(s[1..], pattern))
  }

  /**
   * String.replace(target, replacement) for a non-empty target: scans left to
   * right and replaces every non-overlapping occurrence.
   */
  function ReplaceAll(s: string, target: string, replacement: string): string
    requires target != []
    decreases |s|
  {
    if s == [] then []
    else if StartsWith(s, target) then replacement + ReplaceAll(s[|target|..], target, replacement)
    else [s[0]] + ReplaceAll(s[1..], target, replacement)
  }

  /** Replacing a target that does not occur leaves the text as it was. */
  lemma {:induction false} ReplaceAllAbsent(s: string, target: string, replacement: string)
    requires target != [] && !Contains(s, target)
    ensures ReplaceAll(s, target, replacement) == s
    decreases |s|
  {
    if s != [] {
      ReplaceAllAbsent(s[1..], target, replacement);
      assert [s[0]] + s[1..] == s;
    }
  }

  /** A text that begins with the target gets the replacement in its place, and the scan goes on after it. */
  lemma {:induction false} ReplaceAllTargetThen(target: string, replacement: string, rest: string)
    requires target != []
    ensures ReplaceAll(target + rest, target, replacement) == replacement + ReplaceAll(rest, target, replacement)
  {
    var s := target + rest;
    assert StartsWith(s, target);
    assert s[|target|..] == rest;
  }

  /** String.indexOf(char): the first index of `c`, or -1. */
  function IndexOfChar(s: string, c: char): (r: int)
    ensures -1 <= r < |s|
    ensures r >= 0 ==> s[r] == c && forall j :: 0 <= j < r ==> s[j] != c
    ensures r == -1 ==> forall j :: 0 <= j < |s| ==> s[j] != c
  {
    if s == [] then -1
    else if s[0] == c then 0
    else var k := IndexOfChar(s[1..], c); if k == -1 then -1 else k + 1
  }

  /** Only ASCII letters are lowered, as in a locale without special case rules (README, "Left out"). */
  function LowerChar(c: char): char {
    if 'A' <= c <= 'Z' then (c as int + 32) as char else c
  }

  /** String.toLowerCase() on the ASCII range. */
  function ToLower(s: string): (r: string)
    ensures |r| == |s|
    ensures forall i :: 0 <= i < |s| ==> r[i] == LowerChar(s[i])
  {
    if s == [] then [] else [LowerChar(s[0])] + ToLower(s[1..])
  }

  /** Lowering distributes over concatenation. */
  lemma ToLowerConcat(a: string, b: string)
    ensures ToLower(a + b) == ToLower(a) + ToLower(b)
  {
    assert forall i :: 0 <= i < |a + b| ==> ToLower(a + b)[i] == (ToLower(a) + ToLower(b))[i];
  }
}
