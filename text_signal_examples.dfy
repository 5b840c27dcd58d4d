/** The keyword factor on concrete notes. */
module TextSignalExamples {
  import opened TextSignal

  function Indicator(b: bool): nat { if b then 1 else 0 }

  /** The hit count over a list of seven keywords, written out term by term. */
  lemma HitsOfSeven(k: seq<string>, t: string)
    requires |k| == 7
    ensures Hits(k, t) ==
      Indicator(Contains(t, k[0])) + Indicator(Contains(t, k[1]))
      + Indicator(Contains(t, k[2])) + Indicator(Contains(t, k[3]))
      + Indicator(Contains(t, k[4])) + Indicator(Contains(t, k[5]))
      + Indicator(Contains(t, k[6]))
  {
    assert k[7..] == [];
    assert k[6..][1..] == k[7..];
    assert Hits(k[6..], t) == Indicator(Contains(t, k[6]));
    assert k[5..][1..] == k[6..];
    assert Hits(k[5..], t) == Indicator(Contains(t, k[5])) + Hits(k[6..], t);
    assert k[4..][1..] == k[5..];
    assert Hits(k[4..], t) == Indicator(Contains(t, k[4])) + Hits(k[5..], t);
    assert k[3..][1..] == k[4..];
    assert Hits(k[3..], t) == Indicator(Contains(t, k[3])) + Hits(k[4..], t);
    assert k[2..][1..] == k[3..];
    assert Hits(k[2..], t) == Indicator(Contains(t, k[2])) + Hits(k[3..], t);
    assert k[1..][1..] == k[2..];
    assert Hits(k[1..], t) == Indicator(Contains(t, k[1])) + Hits(k[2..], t);
  }

  /** The keywords the scan does not find in "sepsis y bullas": all but the third and the sixth. */
  lemma TwoKeywordsAbsent(t: string)
    requires t == "sepsis y bullas"
    ensures !Contains(t, Keywords[0]) && !Contains(t, Keywords[1]) && !Contains(t, Keywords[3])
    ensures !Contains(t, Keywords[4]) && !Contains(t, Keywords[6])
  {
    assert 'd' !in t && 'c' !in t && 'n' !in t && 'g' !in t && 'h' !in t;
    assert 'd' in Keywords[0] && 'c' in Keywords[1] && 'n' in Keywords[3];
    assert 'g' in Keywords[4] && 'h' in Keywords[6];
    MissingCharacterExcludes(t, Keywords[0], 'd');
    MissingCharacterExcludes(t, Keywords[1], 'c');
    MissingCharacterExcludes(t, Keywords[3], 'n');
    MissingCharacterExcludes(t, Keywords[4], 'g');
    MissingCharacterExcludes(t, Keywords[6], 'h');
  }

  /** The scan finds two keywords in "sepsis y bullas". */
  lemma TwoKeywordsHits(t: string)
    requires t == "sepsis y bullas"
    ensures Hits(Keywords, t) == 2
  {
    TwoKeywordsAbsent(t);
    FoundAt(t, Keywords[2], 9);
    FoundAt(t, Keywords[5], 0);
    HitsOfSeven(Keywords, t);
  }

  /** "sepsis y bullas" holds two distinct keywords: the factor is 0.10. */
  lemma ExampleTwoKeywords(t: string)
    requires t == "sepsis y bullas"
    ensures KeywordsFactor(t) == 0.1
  {
    TwoKeywordsHits(t);
    LowerKeepsLowerCase(t);
  }

  /** The keywords the scan does not find in "sepsis, sepsis": all but the sixth. */
  lemma RepeatedKeywordAbsent(t: string)
    requires t == "sepsis, sepsis"
    ensures !Contains(t, Keywords[0]) && !Contains(t, Keywords[1]) && !Contains(t, Keywords[2])
    ensures !Contains(t, Keywords[3]) && !Contains(t, Keywords[4]) && !Contains(t, Keywords[6])
  {
    assert 'd' !in t && 'c' !in t && 'b' !in t && 'n' !in t && 'g' !in t && 'h' !in t;
    assert 'd' in Keywords[0] && 'c' in Keywords[1] && 'b' in Keywords[2];
    assert 'n' in Keywords[3] && 'g' in Keywords[4] && 'h' in Keywords[6];
    MissingCharacterExcludes(t, Keywords[0], 'd');
    MissingCharacterExcludes(t, Keywords[1], 'c');
    MissingCharacterExcludes(t, Keywords[2], 'b');
    MissingCharacterExcludes(t, Keywords[3], 'n');
    MissingCharacterExcludes(t, Keywords[4], 'g');
    MissingCharacterExcludes(t, Keywords[6], 'h');
  }

  /** "sepsis, sepsis" holds the keyword "sepsis" at two positions. */
  lemma RepeatedKeywordTwice(t: string)
    requires t == "sepsis, sepsis"
    ensures Keywords[5] <= t[0..] && Keywords[5] <= t[8..]
  {
  }

  /** The scan counts the repeated keyword of "sepsis, sepsis" once. */
  lemma RepeatedKeywordHits(t: string)
    requires t == "sepsis, sepsis"
    ensures Hits(Keywords, t) == 1
  {
    RepeatedKeywordAbsent(t);
    FoundAt(t, Keywords[5], 0);
    HitsOfSeven(Keywords, t);
  }

  /** A keyword written twice still counts once: "sepsis, sepsis" gives 0.05. */
  lemma ExampleRepeatedKeyword(t: string)
    requires t == "sepsis, sepsis"
    ensures KeywordsFactor(t) == 0.05
  {
    RepeatedKeywordHits(t);
    LowerKeepsLowerCase(t);
  }

}
