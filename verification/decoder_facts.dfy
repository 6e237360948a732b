/** What the decoder's rule chain promises: matching is on the lower-cased
    symptom only, a rule fires exactly when one of its expanded keywords
    occurs anywhere in it, the earliest firing rule wins, and every result
    text splits back into its three paragraphs. */
module DecoderFacts {
  import opened Wrappers
  import opened Text
  import opened Pattern
  import opened Prose
  import opened Bundles
  import opened Decoder

  /** A rule fires exactly when some literal keyword of one of its
      alternatives, classes expanded, occurs as a substring of the text. */
  lemma FiresIffKeywordOccurs(text: string, c: Category)
    ensures Fires(text, c) <==>
      exists k, w :: 0 <= k < |Branches(c)| && w in Keywords(Branches(c)[k]) && Contains(text, w)
  {
    forall k | 0 <= k < |Branches(c)| {
      MatchesIffKeywordOccurs(text, Branches(c)[k]);
    }
  }

  /** Classification sees only the lower-cased symptom: a symptom and its
      lower-cased form get the same category. */
  lemma ClassifyIgnoresCase(s: string)
    ensures Classify(Lower(s)) == Classify(s)
  {
    LowerIdempotent(s);
  }

  /** First match wins: once a rule fires, the chosen category is that rule
      or an earlier one, never a later rule nor the default. */
  lemma FiringRuleBoundsChoice(s: string, c: Category)
    requires Fires(Lower(s), c)
    ensures Rank(Classify(s)) <= Rank(c)
  {
  }

  /** A rule is chosen exactly when it fires and no earlier rule does. */
  lemma ChosenIff(s: string, c: Category)
    requires c != General
    ensures Classify(s) == c <==>
      Fires(Lower(s), c) && forall m :: 0 <= m < Rank(c) ==> !Fires(Lower(s), RuleOrder[m])
  {
    if Fires(Lower(s), c) && forall m :: 0 <= m < Rank(c) ==> !Fires(Lower(s), RuleOrder[m]) {
      var r := Classify(s);
      FiringRuleBoundsChoice(s, c);
      if r != General {
        assert RuleOrder[Rank(r)] == r;
        assert Rank(r) == Rank(c);
      }
    }
  }

  /** Any expanded keyword of a rule occurring in the lower-cased symptom
      decides the result at that rule or before it. */
  lemma KeywordBoundsChoice(s: string, c: Category, k: nat, w: string)
    requires k < |Branches(c)| && w in Keywords(Branches(c)[k]) && Contains(Lower(s), w)
    ensures Rank(Classify(s)) <= Rank(c)
  {
    MatchesIffKeywordOccurs(Lower(s), Branches(c)[k]);
    FiringRuleBoundsChoice(s, c);
  }

  /** A class-free alternative fires its rule as soon as it occurs. */
  lemma PlainBranchFires(text: string, c: Category, k: nat)
    requires k < |Branches(c)| && '[' !in Branches(c)[k] && Contains(text, Branches(c)[k])
    ensures Fires(text, c)
  {
    PlainMatches(text, Branches(c)[k]);
  }

  /** Any symptom whose lower-cased text contains "mente", even inside a
      word such as "frecuentemente", is read as a head conflict. */
  lemma MenteSelectsHead(s: string)
    requires Contains(Lower(s), "mente")
    ensures Classify(s) == Head
  {
    PlainBranchFires(Lower(s), Head, 4);
    FiringRuleBoundsChoice(s, Head);
  }

  /** Whenever the lower-cased symptom contains "vertigo" it also contains
      "ver", so the eye rule, which comes before the ear rule, fires: the
      unaccented "vertigo" alternative of the ear rule never decides. */
  lemma VertigoNeverReachesEars(s: string)
    requires Contains(Lower(s), "vertigo")
    ensures Rank(Classify(s)) <= Rank(Eyes)
    ensures Classify(s) != Ears
  {
    var i :| 0 <= i <= |Lower(s)| && Occurs(Lower(s), "vertigo", i);
    assert Lower(s)[i..i + 3] == Lower(s)[i..i + 7][..3];
    assert Occurs(Lower(s), "ver", i);
    PlainBranchFires(Lower(s), Eyes, 2);
    FiringRuleBoundsChoice(s, Eyes);
  }

  /** Splitting a result on blank lines gives back exactly its analysis,
      question and disclaimer, so the card always finds all three parts. */
  lemma ResultRoundTrip(c: Category)
    ensures Split(ResultText(c), ParagraphBreak) == [Analysis(c), Hook(c), Disclaimer]
    ensures View(ResultText(c)) == ResultView(Analysis(c), Some(Hook(c)), Some(Disclaimer))
  {
    assert |Disclaimer1| > 0;
  }
}
