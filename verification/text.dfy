/**
 * The two string operations the bearer-credential guard relies on: splitting a header
 * on whitespace the way Python's `str.split()` with no separator does, and lower-casing
 * the authentication scheme before comparing it with "bearer".
 */
module Text {

  /** The characters Python's `str.split()` treats as separators (`str.isspace()`). */
  predicate IsSpace(c: char) {
    || ('\t' <= c <= '\r')
    || ('\U{1C}' <= c <= ' ')
    || c == '\U{85}' || c == '\U{A0}' || c == '\U{1680}'
    || ('\U{2000}' <= c <= '\U{200A}')
    || c == '\U{2028}' || c == '\U{2029}' || c == '\U{202F}' || c == '\U{205F}' || c == '\U{3000}'
  }

  /** No separator anywhere in `s`. */
  predicate NoSpace(s: string) {
    forall i :: 0 <= i < |s| ==> !IsSpace(s[i])
  }

  /** Only separators in `s` (vacuously true of the empty string). */
  predicate AllSpace(s: string) {
    forall i :: 0 <= i < |s| ==> IsSpace(s[i])
  }

  /** `s` without its leading run of separators. */
  function DropSpaces(s: string): (r: string)
    ensures |r| <= |s|
    ensures r == [] || !IsSpace(r[0])
  {
    if s != [] && IsSpace(s[0]) then DropSpaces(s[1..]) else s
  }

  /** The length of the longest separator-free prefix of `s`. */
  function WordLength(s: string): (n: nat)
    ensures n <= |s|
    ensures NoSpace(s[..n])
    ensures n == |s| || IsSpace(s[n])
  {
    if s == [] || IsSpace(s[0]) then 0 else 1 + WordLength(s[1..])
  }

  /** The maximal separator-free runs of `s`, left to right: Python's `s.split()`. */
  function Words(s: string): (ws: seq<string>)
    ensures forall i :: 0 <= i < |ws| ==> ws[i] != [] && NoSpace(ws[i])
    decreases |s|
  {
    var t := DropSpaces(s);
    if t == [] then []
    else
      var n := WordLength(t);
      [t[..n]] + Words(t[n..])
  }

  lemma {:induction false} DropSpacesOfPadding(a: string, rest: string)
    requires AllSpace(a)
    requires rest == [] || !IsSpace(rest[0])
    ensures DropSpaces(a + rest) == rest
    decreases |a|
  {
    if a != [] {
      assert (a + rest)[1..] == a[1..] + rest;
      DropSpacesOfPadding(a[1..], rest);
    } else {
      assert a + rest == rest;
    }
  }

  lemma {:induction false} WordLengthOfWord(w: string, rest: string)
    requires NoSpace(w)
    requires rest == [] || IsSpace(rest[0])
    ensures WordLength(w + rest) == |w|
    decreases |w|
  {
    if w != [] {
      assert (w + rest)[1..] == w[1..] + rest;
      WordLengthOfWord(w[1..], rest);
    } else {
      assert w + rest == rest;
    }
  }

  /** A run of separators contributes no piece. */
  lemma WordsOfSpaces(a: string)
    requires AllSpace(a)
    ensures Words(a) == []
  {
    DropSpacesOfPadding(a, []);
    assert a + [] == a;
  }

  /** Leading separators are skipped and a word ended by a separator (or the end) is one piece. */
  lemma WordsOfPaddedWord(a: string, w: string, rest: string)
    requires AllSpace(a)
    requires w != [] && NoSpace(w)
    requires rest == [] || IsSpace(rest[0])
    ensures Words(a + (w + rest)) == [w] + Words(rest)
  {
    DropSpacesOfPadding(a, w + rest);
    WordLengthOfWord(w, rest);
    assert (w + rest)[..|w|] == w;
    assert (w + rest)[|w|..] == rest;
  }

  /**
   * A two-word text with any padding: optional separators, the first word, at least one
   * separator, the second word, optional separators, splits into exactly those two words.
   */
  lemma WordsOfTwo(a: string, first: string, mid: string, second: string, tail: string)
    requires AllSpace(a) && AllSpace(mid) && AllSpace(tail) && mid != []
    requires first != [] && NoSpace(first) && second != [] && NoSpace(second)
    ensures Words(a + (first + (mid + (second + tail)))) == [first, second]
  {
    var rest := mid + (second + tail);
    assert Words(rest) == [second] by {
      assert rest[0] == mid[0];
      WordsOfSpaces(tail);
      WordsOfPaddedWord(mid, second, tail);
    }
    assert rest == [] || IsSpace(rest[0]) by {
      assert rest[0] == mid[0];
    }
    WordsOfPaddedWord(a, first, rest);
  }

  /** Python's `str.lower()` on one character, restricted to ASCII letters. */
  function LowerChar(c: char): char {
    if 'A' <= c <= 'Z' then (c as int + 32) as char else c
  }

  /** Python's `str.lower()`, restricted to ASCII letters. */
  function Lower(s: string): (r: string)
    ensures |r| == |s|
    ensures forall i :: 0 <= i < |s| ==> r[i] == LowerChar(s[i])
    ensures forall i :: 0 <= i < |r| ==> !('A' <= r[i] <= 'Z')
  {
    seq(|s|, i requires 0 <= i < |s| => LowerChar(s[i]))
  }

  /**
   * `s.lower() == "bearer"` holds exactly for the six-letter spellings of "bearer" in any
   * mix of upper and lower case: the comparison is case-insensitive and nothing else.
   */
  lemma LowerIsBearer(s: string)
    ensures Lower(s) == "bearer" <==>
      |s| == 6 && forall i :: 0 <= i < 6 ==> s[i] == "bearer"[i] || s[i] == "BEARER"[i]
  {
  }
}
