/** The little string handling the setters rely on: lower-casing and suffix tests.

    Python's `str.lower()` folds all of Unicode; here only the ASCII capitals are
    folded. Every comparison the settings make after lower-casing is against a word of
    ASCII letters, so a non-ASCII character can never take part in a match either way
    (the only non-ASCII characters that fold into ASCII letters fold into `k` and `i`,
    which occur in none of those words). */
module Text {

  /** Lower-cases an ASCII capital letter; every other character is kept. */
  function LowerChar(c: char): char
  {
    if 'A' <= c <= 'Z' then (c as int - 'A' as int + 'a' as int) as char else c
  }

  /** `s.lower()`, character by character. */
  function Lower(s: string): (r: string)
    ensures |r| == |s|
    ensures forall i :: 0 <= i < |s| ==> r[i] == LowerChar(s[i])
  {
    if s == [] then [] else [LowerChar(s[0])] + Lower(s[1..])
  }

  /** `s.endswith(suffix)`. */
  predicate EndsWith(s: string, suffix: string)
  {
    |suffix| <= |s| && s[|s| - |suffix|..] == suffix
  }

  /** `s.endswith(a) or s.endswith(b) or ...`. */
  predicate EndsWithAny(s: string, suffixes: seq<string>)
    decreases |suffixes|
  {
    suffixes != [] && (EndsWith(s, suffixes[0]) || EndsWithAny(s, suffixes[1..]))
  }

  /** Text that ends with one of several suffixes is at least as long as the shortest. */
  lemma {:induction false} EndsWithAnyLength(s: string, suffixes: seq<string>, n: nat)
    requires forall i :: 0 <= i < |suffixes| ==> n <= |suffixes[i]|
    requires EndsWithAny(s, suffixes)
    ensures n <= |s|
    decreases |suffixes|
  {
    if !EndsWith(s, suffixes[0]) {
      EndsWithAnyLength(s, suffixes[1..], n);
    }
  }

  /** Lower-casing distributes over concatenation. */
  lemma {:induction false} LowerAppend(a: string, b: string)
    ensures Lower(a + b) == Lower(a) + Lower(b)
    decreases |a|
  {
    if a == [] {
      assert a + b == b;
    } else {
      assert (a + b)[1..] == a[1..] + b;
      LowerAppend(a[1..], b);
    }
  }

  /** Text without ASCII capitals is its own lower case. */
  lemma LowerWithoutCapitals(s: string)
    requires forall i :: 0 <= i < |s| ==> !('A' <= s[i] <= 'Z')
    ensures Lower(s) == s
  {
  }

  /** Lower-casing twice is lower-casing once. */
  lemma LowerIdempotent(s: string)
    ensures Lower(Lower(s)) == Lower(s)
  {
    assert forall i :: 0 <= i < |s| ==> Lower(Lower(s))[i] == Lower(s)[i];
  }

  /** A lower-cased word still ends the lower-cased text it was appended to. */
  lemma LoweredEndsWith(pre: string, word: string)
    ensures EndsWith(Lower(pre + word), Lower(word))
    ensures |Lower(pre + word)| == |pre| + |word|
  {
    LowerAppend(pre, word);
    EndsWithAppend(Lower(pre), Lower(word));
  }

  /** A word ends with itself after any prefix. */
  lemma EndsWithAppend(pre: string, suffix: string)
    ensures EndsWith(pre + suffix, suffix)
  {
    assert (pre + suffix)[|pre|..] == suffix;
  }
}
