/** Worked examples of the symptom decoder on concrete inputs: the ones the
    page suggests in its placeholder ("Ansiedad", "Rodilla"), the shadowing
    of the unaccented "vertigo", and case-insensitivity. */
module DecoderExamples {
  import opened Text
  import opened Pattern
  import opened Bundles
  import opened Decoder
  import opened DecoderFacts

  /** Upper case makes no difference: the shouted and the plain sentence
      both select the head rule through its "cabeza" alternative. */
  lemma ShoutedHeadache()
    ensures Classify("ME DUELE LA CABEZA") == Head
    ensures Classify("me duele la cabeza") == Head
  {
    var loud, plain := "ME DUELE LA CABEZA", "me duele la cabeza";
    ShoutLowered();
    LowerSpec(plain);
    assert Occurs(plain, "cabeza", 12);
    PlainBranchFires(plain, Head, 0);
    ChosenIff(plain, Head);
    ClassifyIgnoresCase(loud);
  }

  lemma ShoutLowered()
    ensures Lower("ME DUELE LA CABEZA") == "me duele la cabeza"
  {
    var loud := "ME DUELE LA CABEZA";
    assert Lower(loud)[..9] == "me duele ";
    assert Lower(loud)[9..] == "la cabeza";
  }

  /** "mente" inside an adverb is enough for the head rule. */
  lemma AdverbSelectsHead()
    ensures Classify("frecuentemente") == Head
  {
    var s := "frecuentemente";
    LowerSpec(s);
    assert Occurs(s, "mente", 9);
    MenteSelectsHead(s);
  }

  /** Unaccented "vertigo" is read by the eye rule, which tests "ver"
      before the ear rule is reached. */
  lemma UnaccentedVertigoSelectsEyes()
    ensures Classify("vertigo") == Eyes
  {
    var s := "vertigo";
    LowerSpec(s);
    assert Lower(s) == s;
    assert Occurs(s, "ver", 0);
    PlainBranchFires(s, Eyes, 2);
    VertigoMissesEarlierRules();
    ChosenIff(s, Eyes);
  }

  /** Accented "vértigo" escapes the eye rule and is read by the ear rule,
      through its "v[eé]rtigo" alternative. */
  lemma AccentedVertigoSelectsEars()
    ensures Classify("vértigo") == Ears
  {
    var s := "vértigo";
    LowerSpec(s);
    assert Lower(s) == s;
    AccentedVertigoHitsEars();
    AccentedVertigoMissesEarlierRules();
    ChosenIff(s, Eyes);
    ChosenIff(s, Ears);
  }

  lemma AccentedVertigoHitsEars()
    ensures Fires("vértigo", Ears)
  {
    assert Matches("vértigo", Branches(Ears)[5]);
  }

  /** "Rodilla" is a bone conflict. */
  lemma KneeSelectsBones()
    ensures Classify("Rodilla") == Bones
  {
    var s, lowered := "Rodilla", "rodilla";
    LowerSpec(lowered);
    assert Lower(s) == lowered;
    assert Occurs(lowered, "rodilla", 0);
    PlainBranchFires(lowered, Bones, 2);
    RodillaMissesEarlierRules();
    ChosenIff(s, Bones);
  }

  /** "Ansiedad" matches no rule and gets the default answer. */
  lemma AnxietyFallsThrough()
    ensures Classify("Ansiedad") == General
  {
    var s, lowered := "Ansiedad", "ansiedad";
    LowerSpec(lowered);
    assert Lower(s) == lowered;
    AnsiedadMissesEarlierRules();
  }

  // No rule before the eyes rule fires on "vertigo".
  lemma VertigoMissesHead() ensures !Fires("vertigo", Head) {}
  lemma VertigoMissesDigestion() ensures !Fires("vertigo", Digestion) {}
  lemma VertigoMissesLiver() ensures !Fires("vertigo", Liver) {}
  lemma VertigoMissesThroat() ensures !Fires("vertigo", Throat) {}
  lemma VertigoMissesLungs() ensures !Fires("vertigo", Lungs) {}
  lemma VertigoMissesKidneys() ensures !Fires("vertigo", Kidneys) {}
  lemma VertigoMissesSkin() ensures !Fires("vertigo", Skin) {}
  lemma VertigoMissesBones() ensures !Fires("vertigo", Bones) {}
  lemma VertigoMissesMuscles() ensures !Fires("vertigo", Muscles) {}
  lemma VertigoMissesHeart() ensures !Fires("vertigo", Heart) {}

  lemma VertigoMissesEarlierRules()
    ensures forall m :: 0 <= m < 10 ==> !Fires("vertigo", RuleOrder[m])
  {
    forall m | 0 <= m < 10 ensures !Fires("vertigo", RuleOrder[m]) {
      if m == 0 { VertigoMissesHead(); }
      else if m == 1 { VertigoMissesDigestion(); }
      else if m == 2 { VertigoMissesLiver(); }
      else if m == 3 { VertigoMissesThroat(); }
      else if m == 4 { VertigoMissesLungs(); }
      else if m == 5 { VertigoMissesKidneys(); }
      else if m == 6 { VertigoMissesSkin(); }
      else if m == 7 { VertigoMissesBones(); }
      else if m == 8 { VertigoMissesMuscles(); }
      else { VertigoMissesHeart(); }
    }
  }

  // No rule before the ears rule fires on "vértigo".
  lemma AccentedVertigoMissesHead() ensures !Fires("vértigo", Head) {}
  lemma AccentedVertigoMissesDigestion() ensures !Fires("vértigo", Digestion) {}
  lemma AccentedVertigoMissesLiver() ensures !Fires("vértigo", Liver) {}
  lemma AccentedVertigoMissesThroat() ensures !Fires("vértigo", Throat) {}
  lemma AccentedVertigoMissesLungs() ensures !Fires("vértigo", Lungs) {}
  lemma AccentedVertigoMissesKidneys() ensures !Fires("vértigo", Kidneys) {}
  lemma AccentedVertigoMissesSkin() ensures !Fires("vértigo", Skin) {}
  lemma AccentedVertigoMissesBones() ensures !Fires("vértigo", Bones) {}
  lemma AccentedVertigoMissesMuscles() ensures !Fires("vértigo", Muscles) {}
  lemma AccentedVertigoMissesHeart() ensures !Fires("vértigo", Heart) {}
  lemma AccentedVertigoMissesEyes() ensures !Fires("vértigo", Eyes) {}

  lemma AccentedVertigoMissesEarlierRules()
    ensures forall m :: 0 <= m < 11 ==> !Fires("vértigo", RuleOrder[m])
  {
    forall m | 0 <= m < 11 ensures !Fires("vértigo", RuleOrder[m]) {
      if m == 0 { AccentedVertigoMissesHead(); }
      else if m == 1 { AccentedVertigoMissesDigestion(); }
      else if m == 2 { AccentedVertigoMissesLiver(); }
      else if m == 3 { AccentedVertigoMissesThroat(); }
      else if m == 4 { AccentedVertigoMissesLungs(); }
      else if m == 5 { AccentedVertigoMissesKidneys(); }
      else if m == 6 { AccentedVertigoMissesSkin(); }
      else if m == 7 { AccentedVertigoMissesBones(); }
      else if m == 8 { AccentedVertigoMissesMuscles(); }
      else if m == 9 { AccentedVertigoMissesHeart(); }
      else { AccentedVertigoMissesEyes(); }
    }
  }

  // No rule before the bones rule fires on "rodilla".
  lemma RodillaMissesHead() ensures !Fires("rodilla", Head) {}
  lemma RodillaMissesDigestion() ensures !Fires("rodilla", Digestion) {}
  lemma RodillaMissesLiver() ensures !Fires("rodilla", Liver) {}
  lemma RodillaMissesThroat() ensures !Fires("rodilla", Throat) {}
  lemma RodillaMissesLungs() ensures !Fires("rodilla", Lungs) {}
  lemma RodillaMissesKidneys() ensures !Fires("rodilla", Kidneys) {}
  lemma RodillaMissesSkin() ensures !Fires("rodilla", Skin) {}

  lemma RodillaMissesEarlierRules()
    ensures forall m :: 0 <= m < 7 ==> !Fires("rodilla", RuleOrder[m])
  {
    forall m | 0 <= m < 7 ensures !Fires("rodilla", RuleOrder[m]) {
      if m == 0 { RodillaMissesHead(); }
      else if m == 1 { RodillaMissesDigestion(); }
      else if m == 2 { RodillaMissesLiver(); }
      else if m == 3 { RodillaMissesThroat(); }
      else if m == 4 { RodillaMissesLungs(); }
      else if m == 5 { RodillaMissesKidneys(); }
      else { RodillaMissesSkin(); }
    }
  }

  // No rule fires on "ansiedad".
  lemma AnsiedadMissesHead() ensures !Fires("ansiedad", Head) {}
  lemma AnsiedadMissesDigestion() ensures !Fires("ansiedad", Digestion) {}
  lemma AnsiedadMissesLiver() ensures !Fires("ansiedad", Liver) {}
  lemma AnsiedadMissesThroat() ensures !Fires("ansiedad", Throat)
  {
    assert !Matches("ansiedad", "garganta") && !Matches("ansiedad", "anginas");
  }
  lemma AnsiedadMissesLungs() ensures !Fires("ansiedad", Lungs) {}
  lemma AnsiedadMissesKidneys() ensures !Fires("ansiedad", Kidneys) {}
  lemma AnsiedadMissesSkin() ensures !Fires("ansiedad", Skin) {}
  lemma AnsiedadMissesBones() ensures !Fires("ansiedad", Bones) {}
  lemma AnsiedadMissesMuscles() ensures !Fires("ansiedad", Muscles) {}
  lemma AnsiedadMissesHeart() ensures !Fires("ansiedad", Heart) {}
  lemma AnsiedadMissesEyes() ensures !Fires("ansiedad", Eyes) {}
  lemma AnsiedadMissesEars() ensures !Fires("ansiedad", Ears) {}
  lemma AnsiedadMissesMouth() ensures !Fires("ansiedad", Mouth) {}
  lemma AnsiedadMissesFemale() ensures !Fires("ansiedad", Female) {}
  lemma AnsiedadMissesMale() ensures !Fires("ansiedad", Male) {}

  lemma AnsiedadMissesEarlierRules()
    ensures forall m :: 0 <= m < 15 ==> !Fires("ansiedad", RuleOrder[m])
  {
    forall m | 0 <= m < 15 ensures !Fires("ansiedad", RuleOrder[m]) {
      if m == 0 { AnsiedadMissesHead(); }
      else if m == 1 { AnsiedadMissesDigestion(); }
      else if m == 2 { AnsiedadMissesLiver(); }
      else if m == 3 { AnsiedadMissesThroat(); }
      else if m == 4 { AnsiedadMissesLungs(); }
      else if m == 5 { AnsiedadMissesKidneys(); }
      else if m == 6 { AnsiedadMissesSkin(); }
      else if m == 7 { AnsiedadMissesBones(); }
      else if m == 8 { AnsiedadMissesMuscles(); }
      else if m == 9 { AnsiedadMissesHeart(); }
      else if m == 10 { AnsiedadMissesEyes(); }
      else if m == 11 { AnsiedadMissesEars(); }
      else if m == 12 { AnsiedadMissesMouth(); }
      else if m == 13 { AnsiedadMissesFemale(); }
      else { AnsiedadMissesMale(); }
    }
  }
}
