/** The few string functions the benchmark uses, on ASCII text. */
module Text {
  import opened Prelude

  function LowerChar(c: char): char {
    if 'A' <= c <= 'Z' then c - 'A' + 'a' else c
  }

  /** `toLowerCase` */
  function Lower(s: string): (r: string)
    ensures |r| == |s|
  {
    Map(s, LowerChar)
  }

  predicate IsSlugChar(c: char) {
    'a' <= c <= 'z' || '0' <= c <= '9'
  }

  /** `toLowerCase().replace(/[^a-z0-9]+/g, separator)` */
  function Collapse(s: string, separator: char): string {
    if s == "" then ""
    else
      var c := LowerChar(Last(s));
      if IsSlugChar(c) then Collapse(DropLast(s), separator) + [c]
      else if |s| > 1 && !IsSlugChar(LowerChar(s[|s| - 2])) then Collapse(DropLast(s), separator)
      else Collapse(DropLast(s), separator) + [separator]
  }

  function TrimStart(s: string, separator: char): string {
    if s != "" && s[0] == separator then s[1..] else s
  }

  function TrimEnd(s: string, separator: char): string {
    if s != "" && Last(s) == separator then DropLast(s) else s
  }

  /** `normalize`: lower case, with every run of other characters one separator and none at the ends. */
  function Normalize(s: string, separator: char): string {
    TrimEnd(TrimStart(Collapse(s, separator), separator), separator)
  }

  predicate IsSpace(c: char) {
    c == ' ' || c == '\t' || c == '\n' || c == '\r'
  }

  /** `trim` */
  function Trim(s: string): string
    decreases |s|
  {
    if s != "" && IsSpace(s[0]) then Trim(s[1..])
    else if s != "" && IsSpace(Last(s)) then Trim(DropLast(s))
    else s
  }

  predicate EndsWith(s: string, suffix: string) {
    |suffix| <= |s| && s[|s| - |suffix|..] == suffix
  }

  predicate IsWordChar(c: char) {
    'a' <= c <= 'z' || 'A' <= c <= 'Z' || '0' <= c <= '9' || c == '_'
  }

  /** A position that matches `\b`. */
  predicate IsWordBoundary(s: string, i: nat)
    requires i <= |s|
  {
    (i > 0 && IsWordChar(s[i - 1])) != (i < |s| && IsWordChar(s[i]))
  }

  /** `new RegExp("\\b" + word + "\\b", "i").test(s)` for a word without special characters. */
  predicate ContainsWord(s: string, word: string) {
    exists i :: 0 <= i && i + |word| <= |s|
                && Lower(s)[i..i + |word|] == Lower(word) && IsWordBoundary(s, i) && IsWordBoundary(s, i + |word|)
  }

  /** `split(' ').at(-1)!` */
  function LastWord(s: string): string {
    if s == "" || Last(s) == ' ' then "" else LastWord(DropLast(s)) + [Last(s)]
  }

  // ---- What trimming, the last word and the word search are

  /** `Trim` cuts off the spaces at both ends and nothing else. */
  lemma {:induction false} TrimIs(s: string) returns (i: nat, j: nat)
    ensures i <= j <= |s| && Trim(s) == s[i..j]
    ensures forall k :: 0 <= k < i || j <= k < |s| ==> IsSpace(s[k])
    ensures i < j ==> !IsSpace(s[i]) && !IsSpace(s[j - 1])
    decreases |s|
  {
    if s != "" && IsSpace(s[0]) {
      var i', j' := TrimIs(s[1..]);
      i, j := i' + 1, j' + 1;
      assert forall k :: j <= k < |s| ==> s[k] == s[1..][k - 1];
    } else if s != "" && IsSpace(Last(s)) {
      i, j := TrimIs(DropLast(s));
    } else {
      i, j := 0, |s|;
    }
  }

  /** `LastWord` is what follows the last space, or the whole text if it has none. */
  lemma {:induction false} LastWordIs(s: string) returns (i: nat)
    ensures i <= |s| && LastWord(s) == s[i..] && ' ' !in LastWord(s)
    ensures i > 0 ==> s[i - 1] == ' '
  {
    if s == "" || Last(s) == ' ' {
      i := |s|;
    } else {
      i := LastWordIs(DropLast(s));
      assert s[i..] == DropLast(s)[i..] + [Last(s)];
    }
  }

  /** The word stands at the place in either case, and no letter, digit or underscore beside it. */
  predicate WordAt(s: string, word: string, i: nat) {
    && i + |word| <= |s|
    && (forall k :: 0 <= k < |word| ==> LowerChar(s[i + k]) == LowerChar(word[k]))
    && (i == 0 || !IsWordChar(s[i - 1])) && (i + |word| == |s| || !IsWordChar(s[i + |word|]))
  }

  lemma ContainsWordIs(s: string, word: string)
    requires word != "" && forall k :: 0 <= k < |word| ==> IsWordChar(word[k])
    ensures ContainsWord(s, word) <==> exists i: nat :: WordAt(s, word, i)
  {
    forall i: nat | i + |word| <= |s|
      ensures Lower(s)[i..i + |word|] == Lower(word) && IsWordBoundary(s, i) && IsWordBoundary(s, i + |word|) <==>
              WordAt(s, word, i)
    {
      var part := Lower(s)[i..i + |word|];
      assert forall k :: 0 <= k < |word| ==> part[k] == LowerChar(s[i + k]);
      if part == Lower(word) {
        assert part[0] == LowerChar(word[0]) && part[|word| - 1] == LowerChar(word[|word| - 1]);
        assert IsWordChar(s[i]) && IsWordChar(s[i + |word| - 1]);
      }
      assert part == Lower(word) <==> forall k :: 0 <= k < |word| ==> part[k] == Lower(word)[k];
    }
    if ContainsWord(s, word) {
      var i :| 0 <= i && i + |word| <= |s| && Lower(s)[i..i + |word|] == Lower(word)
               && IsWordBoundary(s, i) && IsWordBoundary(s, i + |word|);
      assert WordAt(s, word, i);
    }
    if i: nat :| WordAt(s, word, i) {
      assert Lower(s)[i..i + |word|] == Lower(word) && IsWordBoundary(s, i) && IsWordBoundary(s, i + |word|);
    }
  }

  // ---- Parts of a text

  /** `part` is in `text` without a gap. */
  ghost predicate Contains(text: string, part: string) {
    exists i: nat :: OccursAt(text, part, i)
  }

  predicate OccursAt(text: string, part: string, i: nat) {
    i + |part| <= |text| && text[i..i + |part|] == part
  }

  lemma Appended(a: string, b: string)
    ensures Contains(a + b, b)
    ensures forall part :: Contains(a, part) ==> Contains(a + b, part)
  {
    assert OccursAt(a + b, b, |a|);
    forall part | Contains(a, part)
      ensures Contains(a + b, part)
    {
      var i: nat :| OccursAt(a, part, i);
      assert OccursAt(a + b, part, i);
    }
  }

  lemma ContainsItself(text: string)
    ensures Contains(text, text)
  {
    assert OccursAt(text, text, 0);
  }
}
