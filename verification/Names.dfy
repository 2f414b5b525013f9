/** Names made of capitalised words, and why slugs and source references of such names can be told apart. */
module Names {
  import opened Prelude
  import opened Corpus
  import opened Text
  import opened Generator

  predicate IsUpper(c: char) { 'A' <= c <= 'Z' }
  predicate IsLower(c: char) { 'a' <= c <= 'z' }

  /** Capitalised words of letters, separated by single spaces. */
  ghost predicate TitleName(s: string) {
    && s != "" && Last(s) != ' '
    && forall i :: 0 <= i < |s| ==> TitleChar(s, i)
  }

  predicate TitleChar(s: string, i: int)
    requires 0 <= i < |s|
  {
    if i == 0 || s[i - 1] == ' ' then IsUpper(s[i]) else s[i] == ' ' || IsLower(s[i])
  }

  /** One capitalised word. */
  ghost predicate Word(s: string) {
    s != "" && IsUpper(s[0]) && forall i :: 1 <= i < |s| ==> IsLower(s[i])
  }

  lemma WordIsTitle(s: string)
    requires Word(s)
    ensures TitleName(s)
  {
  }

  lemma JoinTitles(a: string, b: string)
    requires TitleName(a) && TitleName(b)
    ensures TitleName(a + " " + b)
  {
    var s := a + " " + b;
    forall i | 0 <= i < |s|
      ensures TitleChar(s, i)
    {
      if i < |a| {
        assert TitleChar(a, i);
      } else if i > |a| {
        assert TitleChar(b, i - |a| - 1);
      }
    }
  }

  function SlugChar(c: char, separator: char): char {
    if c == ' ' then separator else LowerChar(c)
  }

  function Slugged(s: string, separator: char): (r: string)
    ensures |r| == |s|
  {
    Map(s, c => SlugChar(c, separator))
  }

  /** Normalising a title keeps every position: letters in lower case, spaces as separators. */
  lemma {:induction false} CollapseOfTitle(s: string, separator: char)
    requires forall i :: 0 <= i < |s| ==> TitleChar(s, i)
    ensures Collapse(s, separator) == Slugged(s, separator)
  {
    if s != "" {
      var d := DropLast(s);
      forall i | 0 <= i < |d|
        ensures TitleChar(d, i)
      {
        assert TitleChar(s, i);
      }
      CollapseOfTitle(d, separator);
      EndOfTitleName(s);
      CollapseLast(s, separator);
      assert s == d + [Last(s)];
      assert Slugged(s, separator) == Slugged(d, separator) + [SlugChar(Last(s), separator)];
    }
  }

  predicate IsLetter(c: char) { IsUpper(c) || IsLower(c) }

  lemma EndOfTitleName(s: string)
    requires s != "" && forall i :: 0 <= i < |s| ==> TitleChar(s, i)
    ensures if Last(s) == ' ' then |s| > 1 && IsLetter(s[|s| - 2]) else IsLetter(Last(s))
  {
    assert TitleChar(s, |s| - 1);
    if |s| > 1 {
      assert TitleChar(s, |s| - 2);
    }
  }

  lemma CollapseLast(s: string, separator: char)
    requires s != "" && if Last(s) == ' ' then |s| > 1 && IsLetter(s[|s| - 2]) else IsLetter(Last(s))
    ensures Collapse(s, separator) == Collapse(DropLast(s), separator) + [SlugChar(Last(s), separator)]
  {
    hide LowerChar, IsSlugChar, IsLetter;
    LettersStay(Last(s));
    if Last(s) == ' ' {
      LettersStay(s[|s| - 2]);
    }
  }

  lemma LettersStay(c: char)
    ensures IsLetter(c) ==> IsSlugChar(LowerChar(c))
    ensures c == ' ' ==> !IsSlugChar(LowerChar(c))
  {
  }

  lemma SlugOfTitle(s: string, separator: char)
    requires TitleName(s) && !IsSlugChar(separator)
    ensures Normalize(s, separator) == Slugged(s, separator)
  {
    CollapseOfTitle(s, separator);
    assert TitleChar(s, 0);
    var slug := Slugged(s, separator);
    assert slug[0] != separator;
    assert TitleChar(s, |s| - 1);
    assert Last(slug) != separator;
  }

  /** Different titles stay different when they are normalised, as slugs and as aliases. */
  lemma NormalizeInjective(s: string, t: string, separator: char)
    requires TitleName(s) && TitleName(t) && !IsSlugChar(separator)
    requires Normalize(s, separator) == Normalize(t, separator)
    ensures s == t
  {
    SlugOfTitle(s, separator);
    SlugOfTitle(t, separator);
    forall i | 0 <= i < |s|
      ensures s[i] == t[i]
    {
      SameFrom(s, t, separator, i);
    }
  }

  lemma {:induction false} SameFrom(s: string, t: string, separator: char, i: nat)
    requires TitleName(s) && TitleName(t) && !IsSlugChar(separator)
    requires Slugged(s, separator) == Slugged(t, separator) && i < |s|
    ensures s[i] == t[i]
  {
    assert Slugged(s, separator)[i] == Slugged(t, separator)[i];
    assert TitleChar(s, i) && TitleChar(t, i);
    if i > 0 {
      SameFrom(s, t, separator, i - 1);
    }
  }

  /** What follows the last dash can be read off. */
  lemma AfterLastDash(a: string, b: string, c: string, d: string)
    requires a + "-" + b == c + "-" + d && '-' !in b && '-' !in d
    ensures b == d
  {
    var s := a + "-" + b;
    assert s[|a|] == '-' && (c + "-" + d)[|c|] == '-';
    assert forall p :: |a| < p < |s| ==> s[p] == b[p - |a| - 1];
    assert forall p :: |c| < p < |s| ==> (c + "-" + d)[p] == d[p - |c| - 1];
    assert |a| == |c|;
    assert b == s[|s| - |b|..] && d == s[|s| - |d|..];
  }

  lemma AfterPrefix(p: string, a: string, b: string)
    requires p + a == p + b
    ensures a == b
  {
    assert a == (p + a)[|p|..] && b == (p + b)[|p|..];
  }

  /** References that are not shared aliases identify the name they were made from. */
  lemma ReferenceInjective(system: SourceSystem, s: string, i: nat, t: string, j: nat)
    requires TitleName(s) && TitleName(t) && (i == j ==> s == t)
    requires SourceReference(system, s, i, false) == SourceReference(system, t, j, false)
    ensures s == t
  {
    match system
    case Crm =>
      AfterPrefix("account-", Decimal(10_000 + i), Decimal(10_000 + j));
      DecimalInjective(10_000 + i, 10_000 + j);
    case Documents =>
      AfterPrefix("/clients/", Normalize(s, '-'), Normalize(t, '-'));
      NormalizeInjective(s, t, '-');
    case Messages =>
      AfterPrefix("channel-", Normalize(s, '-'), Normalize(t, '-'));
      NormalizeInjective(s, t, '-');
    case Meetings =>
      DecimalDigits(i);
      DecimalDigits(j);
      AfterLastDash(WithoutSpaces(s), Decimal(i), WithoutSpaces(t), Decimal(j));
      DecimalInjective(i, j);
    case Research =>
      NormalizeInjective(s, t, '-');
  }

  // ---- The generated vocabulary

  lemma ClientWords(i: nat)
    requires i < 20
    ensures Word(CLIENT_WORDS[i])
    ensures CLIENT_WORDS[i][0] as int == 'A' as int + i
  {
    if i < 10 {
      assert i == 0 || i == 1 || i == 2 || i == 3 || i == 4 || i == 5 || i == 6 || i == 7 || i == 8 || i == 9;
    } else {
      assert i == 10 || i == 11 || i == 12 || i == 13 || i == 14 || i == 15 || i == 16 || i == 17 || i == 18 || i == 19;
    }
  }

  lemma OtherWords()
    ensures forall i :: 0 <= i < 5 ==> Word(CLIENT_SUFFIXES[i])
    ensures forall i :: 0 <= i < 4 ==> Word(PROJECT_WORDS[i])
    ensures forall i, j :: 0 <= i < j < 5 ==> CLIENT_SUFFIXES[i][0] != CLIENT_SUFFIXES[j][0]
    ensures forall i, j :: 0 <= i < j < 4 ==> PROJECT_WORDS[i][0] != PROJECT_WORDS[j][0]
  {
  }

  lemma ClientNameIsTitle(index: nat)
    ensures TitleName(ClientName(index))
  {
    ClientWords(index % 20);
    OtherWords();
    WordIsTitle(ClientWord(index));
    WordIsTitle(ClientSuffix(index));
    JoinTitles(ClientWord(index), ClientSuffix(index));
  }

  lemma ProjectNameIsTitle(index: nat, ordinal: nat)
    ensures TitleName(ProjectName(index, ordinal))
  {
    ClientNameIsTitle(index);
    OtherWords();
    WordIsTitle(ProjectWord(ordinal));
    JoinTitles(ClientName(index), ProjectWord(ordinal));
  }

  /** A first word without spaces can be split off. */
  lemma SplitFirst(a: string, b: string, c: string, d: string)
    requires ' ' !in a && ' ' !in c && a + " " + b == c + " " + d
    ensures a == c && b == d
  {
    var s := a + " " + b;
    assert s[|a|] == ' ' && (c + " " + d)[|c|] == ' ';
    assert forall p :: 0 <= p < |a| ==> s[p] == a[p];
    assert forall p :: 0 <= p < |c| ==> (c + " " + d)[p] == c[p];
    assert |a| == |c|;
    assert a == s[..|a|] && c == s[..|c|] && b == s[|a| + 1..] && d == s[|c| + 1..];
  }

  lemma ClientWordInjective(i: nat, j: nat)
    requires ClientWord(i) == ClientWord(j)
    ensures i % 20 == j % 20
  {
    ClientWords(i % 20);
    ClientWords(j % 20);
  }

  lemma ClientSuffixInjective(i: nat, j: nat)
    requires ClientSuffix(i) == ClientSuffix(j)
    ensures i / 20 % 5 == j / 20 % 5
  {
    OtherWords();
  }

  lemma ProjectWordInjective(a: nat, b: nat)
    requires ProjectWord(a) == ProjectWord(b)
    ensures a % 4 == b % 4
  {
    OtherWords();
  }

  lemma WordsHaveNoSpaces(i: nat)
    ensures ' ' !in ClientWord(i) && ' ' !in ClientSuffix(i)
  {
    ClientWords(i % 20);
    OtherWords();
    NoSpaces(ClientWord(i));
    NoSpaces(ClientSuffix(i));
  }

  lemma OneResidue(i: nat, q: nat, r: nat)
    requires i == 100 * q + r && r < 100
    ensures i % 100 == r && i % 20 == r % 20 && i / 20 % 5 == r / 20
  {
    assert i == 20 * (5 * q) + r;
    assert i / 20 == 5 * q + r / 20;
  }

  lemma Residues(i: nat, j: nat)
    ensures i % 20 == j % 20 && i / 20 % 5 == j / 20 % 5 <==> i % 100 == j % 100
  {
    OneResidue(i, i / 100, i % 100);
    OneResidue(j, j / 100, j % 100);
    Below100(i % 100, j % 100);
  }

  lemma Below100(r: nat, s: nat)
    requires r < 100 && s < 100
    ensures r % 20 == s % 20 && r / 20 == s / 20 <==> r == s
  {
  }

  lemma EqualNames(i: nat, a: nat, j: nat, b: nat)
    requires ProjectName(i, a) == ProjectName(j, b)
    ensures i % 20 == j % 20 && i / 20 % 5 == j / 20 % 5 && a % 4 == b % 4
  {
    hide ClientWord, ClientSuffix, ProjectWord;
    WordsHaveNoSpaces(i);
    WordsHaveNoSpaces(j);
    assert ProjectName(i, a) == ClientWord(i) + " " + (ClientSuffix(i) + " " + ProjectWord(a));
    assert ProjectName(j, b) == ClientWord(j) + " " + (ClientSuffix(j) + " " + ProjectWord(b));
    SplitFirst(ClientWord(i), ClientSuffix(i) + " " + ProjectWord(a), ClientWord(j),
               ClientSuffix(j) + " " + ProjectWord(b));
    SplitFirst(ClientSuffix(i), ProjectWord(a), ClientSuffix(j), ProjectWord(b));
    ClientWordInjective(i, j);
    ClientSuffixInjective(i, j);
    ProjectWordInjective(a, b);
  }

  lemma SameParts(i: nat, a: nat, j: nat, b: nat)
    requires i % 20 == j % 20 && i / 20 % 5 == j / 20 % 5 && a % 4 == b % 4
    ensures ProjectName(i, a) == ProjectName(j, b)
  {
  }

  /** Project names repeat after 100 clients and after 4 projects of a client, and never otherwise. */
  lemma ProjectNamesRepeat(i: nat, a: nat, j: nat, b: nat)
    ensures ProjectName(i, a) == ProjectName(j, b) <==> i % 100 == j % 100 && a % 4 == b % 4
  {
    hide ProjectName;
    Residues(i, j);
    if ProjectName(i, a) == ProjectName(j, b) {
      EqualNames(i, a, j, b);
    } else if i % 100 == j % 100 && a % 4 == b % 4 {
      SameParts(i, a, j, b);
    }
  }

  lemma NoSpaces(w: string)
    requires Word(w)
    ensures ' ' !in w
  {
  }
}
