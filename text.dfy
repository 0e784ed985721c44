/**
 * The Python string primitives the store relies on: `str.lower()`, `str.split()` with no
 * argument, the substring test `w in s` and the non-overlapping count `s.count(w)`.
 */
module Text {

  /** The characters Python's `str.split()` splits on (those for which `str.isspace()` holds). */
  predicate IsSpace(c: char)
  {
    var n := c as int;
    || n == 32 || 9 <= n <= 13 || 28 <= n <= 31 || n == 0x85 || n == 0xA0
    || n == 0x1680 || 0x2000 <= n <= 0x200A || n == 0x2028 || n == 0x2029
    || n == 0x202F || n == 0x205F || n == 0x3000
  }

  /** `c.lower()` for the ASCII letters; every other character is left as it is. */
  function LowerChar(c: char): char
  {
    if 'A' <= c <= 'Z' then (c as int + 32) as char else c
  }

  /** `s.lower()`, letter by letter. */
  function Lower(s: string): (r: string)
    ensures |r| == |s|
    ensures forall i :: 0 <= i < |s| ==> r[i] == LowerChar(s[i])
  {
    if s == [] then [] else [LowerChar(s[0])] + Lower(s[1..])
  }

  /** A token `str.split()` can produce: non-empty and free of whitespace. */
  predicate IsWord(w: string)
  {
    |w| > 0 && forall i :: 0 <= i < |w| ==> !IsSpace(w[i])
  }

  /** The length of the run of non-whitespace characters at the start of `s`. */
  function WordLength(s: string): (n: nat)
    ensures n <= |s|
    ensures forall i :: 0 <= i < n ==> !IsSpace(s[i])
    ensures n < |s| ==> IsSpace(s[n])
  {
    if s == [] || IsSpace(s[0]) then 0 else 1 + WordLength(s[1..])
  }

  /** `s.split()`: the maximal runs of non-whitespace characters, left to right. */
  function Split(s: string): (words: seq<string>)
    ensures forall w :: w in words ==> IsWord(w)
    decreases |s|
  {
    if s == [] then []
    else if IsSpace(s[0]) then Split(s[1..])
    else
      var n := WordLength(s);
      [s[..n]] + Split(s[n..])
  }

  /** `" ".join(words)`. */
  function JoinSpaced(words: seq<string>): string
  {
    if words == [] then []
    else if |words| == 1 then words[0]
    else words[0] + " " + JoinSpaced(words[1..])
  }

  /** `s.startswith(w)`. */
  predicate StartsWith(s: string, w: string)
  {
    |w| <= |s| && s[..|w|] == w
  }

  /** `w in s`: `w` occurs in `s` at some position. */
  predicate Contains(s: string, w: string)
    decreases |s|
  {
    StartsWith(s, w) || (|s| > 0 && Contains(s[1..], w))
  }

  /**
   * `s.count(w)` for a non-empty `w`: occurrences found left to right, none overlapping, so
   * together they fit in `s`.
   */
  function Count(s: string, w: string): (n: nat)
    requires |w| > 0
    ensures n * |w| <= |s|
    decreases |s|
  {
    if |s| < |w| then 0
    else if s[..|w|] == w then
      var rest := Count(s[|w|..], w);
      assert (1 + rest) * |w| == |w| + rest * |w|;
      1 + rest
    else Count(s[1..], w)
  }

  /** Splitting words joined by single spaces gives the words back. */
  lemma {:induction false} SplitJoinSpaced(words: seq<string>)
    requires forall w :: w in words ==> IsWord(w)
    ensures Split(JoinSpaced(words)) == words
  {
    if words == [] {
    } else if |words| == 1 {
      WordLengthOfWord(words[0], []);
      assert words[0][..|words[0]|] == words[0];
      assert words[0][|words[0]|..] == [];
    } else {
      var w, rest := words[0], JoinSpaced(words[1..]);
      var s := w + " " + rest;
      assert JoinSpaced(words) == s;
      WordLengthOfWord(w, " " + rest);
      assert s == w + (" " + rest);
      assert s[..|w|] == w;
      assert s[|w|..] == " " + rest;
      assert (" " + rest)[1..] == rest;
      SplitJoinSpaced(words[1..]);
    }
  }

  /** Leading whitespace is skipped: it starts no word. */
  lemma SplitSkipsSpace(c: char, s: string)
    requires IsSpace(c)
    ensures Split([c] + s) == Split(s)
  {
    assert ([c] + s)[1..] == s;
  }

  /** A word followed by nothing or by whitespace is the next piece, whole. */
  lemma SplitTakesWord(w: string, s: string)
    requires IsWord(w)
    requires s == [] || IsSpace(s[0])
    ensures Split(w + s) == [w] + Split(s)
  {
    var t := w + s;
    WordLengthOfWord(w, s);
    assert t[0] == w[0];
    assert t[..|w|] == w;
    assert t[|w|..] == s;
  }

  /** A word followed by nothing or by whitespace is read whole. */
  lemma {:induction false} WordLengthOfWord(w: string, rest: string)
    requires IsWord(w)
    requires rest == [] || IsSpace(rest[0])
    ensures WordLength(w + rest) == |w|
  {
    if |w| > 1 {
      assert (w + rest)[1..] == w[1..] + rest;
      WordLengthOfWord(w[1..], rest);
    } else {
      assert (w + rest)[1..] == rest;
    }
  }

  /** An occurrence needs room: `w in s` implies `len(w) <= len(s)`. */
  lemma {:induction false} ContainsFits(s: string, w: string)
    requires Contains(s, w)
    ensures |w| <= |s|
    decreases |s|
  {
    if !StartsWith(s, w) {
      ContainsFits(s[1..], w);
    }
  }

  /** `s.count(w) == 0` exactly when `w not in s`. */
  lemma {:induction false} CountZeroIffAbsent(s: string, w: string)
    requires |w| > 0
    ensures Count(s, w) == 0 <==> !Contains(s, w)
    decreases |s|
  {
    if |s| < |w| {
      if Contains(s, w) {
        ContainsFits(s, w);
      }
    } else if s[..|w|] == w {
      assert StartsWith(s, w);
    } else {
      assert !StartsWith(s, w);
      CountZeroIffAbsent(s[1..], w);
    }
  }

  /** `s.lower() == s` when `s` has no upper-case ASCII letter. */
  lemma LowerIdentity(s: string)
    requires forall c :: c in s ==> !('A' <= c <= 'Z')
    ensures Lower(s) == s
  {
    forall i | 0 <= i < |s| ensures Lower(s)[i] == s[i] {
      assert s[i] in s;
    }
  }

  /** A word with a character that `s` lacks does not occur in `s`. */
  lemma {:induction false} AbsentByChar(s: string, w: string, c: char)
    requires c in w && c !in s
    ensures !Contains(s, w)
    decreases |s|
  {
    if |s| > 0 {
      assert forall i :: 0 <= i < |s[1..]| ==> s[1..][i] == s[i + 1];
      AbsentByChar(s[1..], w, c);
    }
  }
}
