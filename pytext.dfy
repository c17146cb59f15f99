/** The Python string operations the advisory generator relies on:
    `str.strip()`, `str.upper()` and the substring test `pattern in text`.
    Strings are sequences of code points, as in Python. */
module PyText {

  /** Python's whitespace (`str.isspace`): the characters `strip()` removes. */
  predicate IsSpace(c: char)
  {
    var n := c as int;
    || n == 0x20 || 0x09 <= n <= 0x0D || 0x1C <= n <= 0x1F
    || n == 0x85 || n == 0xA0 || n == 0x1680 || 0x2000 <= n <= 0x200A
    || n == 0x2028 || n == 0x2029 || n == 0x202F || n == 0x205F || n == 0x3000
  }

  ghost predicate AllSpace(s: string)
  {
    forall k :: 0 <= k < |s| ==> IsSpace(s[k])
  }

  /** Leading whitespace removed: a suffix of s, starting at a non-space. */
  function TrimStart(s: string): (r: string)
    ensures |r| <= |s| && r == s[|s| - |r|..]
    ensures AllSpace(s[..|s| - |r|])
    ensures r == [] || !IsSpace(r[0])
  {
    if s != [] && IsSpace(s[0]) then TrimStart(s[1..]) else s
  }

  /** Trailing whitespace removed: a prefix of s, ending at a non-space. */
  function TrimEnd(s: string): (r: string)
    ensures |r| <= |s| && r == s[..|r|]
    ensures AllSpace(s[|r|..])
    ensures r == [] || !IsSpace(r[|r| - 1])
  {
    if s != [] && IsSpace(s[|s| - 1]) then TrimEnd(s[..|s| - 1]) else s
  }

  /** `s.strip()`: the slice of s left after removing whitespace at both
      ends; it neither starts nor ends with whitespace. */
  function Strip(s: string): (r: string)
    ensures exists i :: 0 <= i && i + |r| <= |s| && r == s[i..i + |r|] &&
                        AllSpace(s[..i]) && AllSpace(s[i + |r|..])
    ensures r == [] || (!IsSpace(r[0]) && !IsSpace(r[|r| - 1]))
  {
    var t := TrimStart(s);
    var r := TrimEnd(t);
    var i := |s| - |t|;
    assert s[i..i + |r|] == t[..|r|];
    assert s[i + |r|..] == t[|r|..];
    r
  }

  /** Stripping gives "" exactly when s is all whitespace. */
  lemma StripEmptyIffAllSpace(s: string)
    ensures Strip(s) == [] <==> AllSpace(s)
  {
    var r := Strip(s);
    if r == [] {
      var i :| 0 <= i && i + |r| <= |s| && r == s[i..i + |r|] && AllSpace(s[..i]) && AllSpace(s[i + |r|..]);
      forall k | 0 <= k < |s| ensures IsSpace(s[k]) {
        if k < i { assert s[k] == s[..i][k]; } else { assert s[k] == s[i..][k - i]; }
      }
    }
  }

  /** ASCII upper-casing of one character. */
  function UpperChar(c: char): char
  {
    if 'a' <= c <= 'z' then (c as int - 32) as char else c
  }

  /** `s.upper()` on ASCII letters: the same text, position by position,
      up to case, with no lower-case letter left. */
  function Upper(s: string): (r: string)
    ensures |r| == |s|
    ensures forall k :: 0 <= k < |s| ==> SameIgnoringCase(r[k], s[k]) && !('a' <= r[k] <= 'z')
  {
    seq(|s|, k requires 0 <= k < |s| => UpperChar(s[k]))
  }

  predicate OccursAt(text: string, pattern: string, i: nat)
  {
    i + |pattern| <= |text| && text[i..i + |pattern|] == pattern
  }

  /** `pattern in text` */
  predicate Contains(text: string, pattern: string)
  {
    exists i :: 0 <= i <= |text| - |pattern| && OccursAt(text, pattern, i)
  }

  predicate IsAsciiLetter(c: char)
  {
    'a' <= c <= 'z' || 'A' <= c <= 'Z'
  }

  /** The same letter in either case, or the same character. */
  predicate SameIgnoringCase(a: char, b: char)
  {
    a == b || (IsAsciiLetter(a) && IsAsciiLetter(b) && (a as int - b as int == 32 || b as int - a as int == 32))
  }

  ghost predicate MatchesIgnoringCaseAt(text: string, word: string, i: nat)
  {
    i + |word| <= |text| && forall k :: 0 <= k < |word| ==> SameIgnoringCase(text[i + k], word[k])
  }

  /** Reference definition of a case-insensitive occurrence of `word`. */
  ghost predicate MentionsIgnoringCase(text: string, word: string)
  {
    exists i :: 0 <= i <= |text| - |word| && MatchesIgnoringCaseAt(text, word, i)
  }

  predicate IsUpperWord(word: string)
  {
    forall k :: 0 <= k < |word| ==> 'A' <= word[k] <= 'Z'
  }

  lemma UpperCharMatches(c: char, p: char)
    requires 'A' <= p <= 'Z'
    ensures UpperChar(c) == p <==> SameIgnoringCase(c, p)
  {
  }

  lemma {:induction false} OccursAtIffMatches(text: string, word: string, i: nat)
    requires IsUpperWord(word)
    ensures OccursAt(Upper(text), word, i) <==> MatchesIgnoringCaseAt(text, word, i)
  {
    var u := Upper(text);
    if i + |word| <= |text| {
      if OccursAt(u, word, i) {
        forall k | 0 <= k < |word| ensures SameIgnoringCase(text[i + k], word[k]) {
          assert u[i..i + |word|][k] == u[i + k];
          UpperCharMatches(text[i + k], word[k]);
        }
      }
      if MatchesIgnoringCaseAt(text, word, i) {
        forall k | 0 <= k < |word| ensures u[i..i + |word|][k] == word[k] {
          UpperCharMatches(text[i + k], word[k]);
        }
      }
    }
  }

  /** Upper-casing the text and searching for an upper-case word is a
      case-insensitive search. */
  lemma UpperContainsIffMentions(text: string, word: string)
    requires IsUpperWord(word)
    ensures Contains(Upper(text), word) <==> MentionsIgnoringCase(text, word)
  {
    if Contains(Upper(text), word) {
      var i :| 0 <= i <= |Upper(text)| - |word| && OccursAt(Upper(text), word, i);
      OccursAtIffMatches(text, word, i);
    }
    if MentionsIgnoringCase(text, word) {
      var i :| 0 <= i <= |text| - |word| && MatchesIgnoringCaseAt(text, word, i);
      OccursAtIffMatches(text, word, i);
    }
  }
}
