/** The symptom decoder of the landing page (`handleDecode` in App.tsx): the
    symptom is lower-cased, matched against an ordered chain of fifteen
    unanchored regular expressions, and the first one that matches selects a
    canned analysis and follow-up question; when none matches a default pair
    is used. The result shown is the analysis, the question and a fixed
    disclaimer joined by blank lines, and the view splits it back on blank
    lines. */
module Decoder {
  import opened Wrappers
  import opened Text
  import opened Pattern
  import opened Prose
  import opened Bundles

  /** The order in which the chain tests the rules. */
  const RuleOrder: seq<Category> :=
    [Head, Digestion, Liver, Throat, Lungs, Kidneys, Skin, Bones,
     Muscles, Heart, Eyes, Ears, Mouth, Female, Male]

  /** A category's position in the chain; the default comes after every rule. */
  function Rank(c: Category): (r: nat)
    ensures r <= |RuleOrder|
    ensures r < |RuleOrder| <==> c != General
    ensures r < |RuleOrder| ==> RuleOrder[r] == c
  {
    match c
    case Head => 0 case Digestion => 1 case Liver => 2 case Throat => 3
    case Lungs => 4 case Kidneys => 5 case Skin => 6 case Bones => 7
    case Muscles => 8 case Heart => 9 case Eyes => 10 case Ears => 11
    case Mouth => 12 case Female => 13 case Male => 14 case General => 15
  }

  /** The alternatives of each rule's regular expression, in source syntax
      and order. The default has no matcher. */
  function Branches(c: Category): seq<string>
  {
    match c
    case Head => ["cabeza", "migraña", "cefalea", "cerebro", "mente"]
    case Digestion => ["est[oó]mago", "panza", "digest", "indigest", "acidez", "gastritis", "reflujo", "v[oó]mito"]
    case Liver => ["h[ií]gado", "bilis", "colesterol", "grasa", "hepat"]
    case Throat => ["garganta", "tos", "laringe", "faringe", "tiroides", "voz", "ahogo", "anginas"]
    case Lungs => ["pulm[oó]n", "respir", "aire", "asma", "bronqui", "neumo"]
    case Kidneys => ["ri[ñn][oó]n", "orina", "cistitis", "l[ií]quido", "renal", "calculo"]
    case Skin => ["piel", "dermis", "eczem", "alergia", "urticaria", "grano", "acn[eé]", "psoriasis", "ronchas"]
    case Bones => ["hueso", "articul", "rodilla", "hombro", "codo", "artritis", "osteoporo", "reuma", "cadera", "columna"]
    case Muscles => ["músculo", "fibro", "calambre", "tendi", "contractura", "pierna", "brazo"]
    case Heart => ["coraz[oó]n", "taquicardia", "presi[oó]n", "hipertensi[oó]n", "sangre", "cardi"]
    case Eyes => ["ojo", "vis", "ver", "mio", "astigmat", "lentes", "ciego"]
    case Ears => ["o[ií]do", "sorder", "zumbido", "tinnitus", "vertigo", "v[eé]rtigo", "escuchar"]
    case Mouth => ["diente", "muela", "boca", "mand[ií]bula", "enc[ií]a"]
    case Female => ["mujer", "ovario", "utero", "menstru", "regla", "seno", "mama", "vagina", "candid"]
    case Male => ["hombre", "test[ií]culo", "prostata", "pr[óo]stata", "pene", "erecci[oó]n"]
    case General => []
  }

  /** The shape of the rule table: every rule has alternatives, only the
      default has none, and no alternative is empty (an empty one would
      match every text and make its rule swallow all later ones). */
  lemma RuleTableShape(c: Category)
    ensures Branches(c) == [] <==> c == General
    ensures forall k :: 0 <= k < |Branches(c)| ==> Branches(c)[k] != []
  {
  }

  /** The rule's regular expression matches the (lower-cased) text: one of
      its alternatives matches somewhere. */
  predicate Fires(text: string, c: Category)
  {
    exists k :: 0 <= k < |Branches(c)| && Matches(text, Branches(c)[k])
  }

  /** The index of the first `true` at or after `n`, or `|v|` when there is none. */
  function FirstTrue(v: seq<bool>, n: nat): (r: nat)
    requires n <= |v|
    ensures n <= r <= |v|
    ensures r < |v| ==> v[r]
    ensures forall m :: n <= m < r ==> !v[m]
    decreases |v| - n
  {
    if n == |v| || v[n] then n else FirstTrue(v, n + 1)
  }

  /** Whether each rule of the chain, in order, fires on the text. */
  function Verdicts(text: string): (v: seq<bool>)
    ensures |v| == |RuleOrder|
    ensures forall m :: 0 <= m < |RuleOrder| ==> (v[m] <==> Fires(text, RuleOrder[m]))
  {
    seq(|RuleOrder|, m requires 0 <= m < |RuleOrder| => Fires(text, RuleOrder[m]))
  }

  /** The category `handleDecode` selects for a symptom: the first rule whose
      expression matches the lower-cased symptom, else the default. */
  function Classify(symptom: string): (c: Category)
    ensures c != General ==> Fires(Lower(symptom), c)
    ensures c == General <==> forall m :: 0 <= m < |RuleOrder| ==> !Fires(Lower(symptom), RuleOrder[m])
    ensures forall m :: 0 <= m < Rank(c) ==> !Fires(Lower(symptom), RuleOrder[m])
  {
    var v := Verdicts(Lower(symptom));
    var r := FirstTrue(v, 0);
    if r < |RuleOrder| then
      RankInvertsOrder(r);
      RuleOrder[r]
    else General
  }

  /** Each rule's position in the chain is its rank. */
  lemma RankInvertsOrder(r: nat)
    requires r < |RuleOrder|
    ensures Rank(RuleOrder[r]) == r
  {
  }

  /** The blank line between the three paragraphs of a result. */
  const ParagraphBreak: string := "\n\n"

  /** The result text for a category: analysis, question and disclaimer
      separated by blank lines, none of which holds a line break, so that
      splitting on blank lines finds exactly those three paragraphs. */
  function ResultText(c: Category): (r: string)
    ensures Split(r, ParagraphBreak) == [Analysis(c), Hook(c), Disclaimer]
  {
    AnalysisOneLine(c);
    HookOneLine(c);
    DisclaimerOneLine();
    ThreeParagraphsRoundTrip(Analysis(c), Hook(c), Disclaimer);
    Analysis(c) + ParagraphBreak + Hook(c) + ParagraphBreak + Disclaimer
  }

  /** The text `handleDecode` hands to the timer for a symptom: its
      paragraphs are the analysis and question of the rule the chain
      selects, then the disclaimer. */
  function DecoderResult(symptom: string): (r: string)
    ensures Split(r, ParagraphBreak)
            == [Analysis(Classify(symptom)), Hook(Classify(symptom)), Disclaimer]
  {
    ResultText(Classify(symptom))
  }

  /** What the result card shows: the quoted analysis (part 0), the question
      (part 1, absent when the text has fewer parts) and the footer (part 2,
      shown only when present and non-empty). */
  datatype ResultView = ResultView(quote: string, question: Option<string>, footer: Option<string>)

  /** The result card's reading of a result text, splitting it on blank lines. */
  function View(result: string): (v: ResultView)
    ensures v.footer.Some? ==> v.question.Some? && v.footer.value != ""
  {
    var parts := Split(result, ParagraphBreak);
    ResultView(
      parts[0],
      if |parts| > 1 then Some(parts[1]) else None,
      if |parts| > 2 && parts[2] != "" then Some(parts[2]) else None)
  }

  /** Three line-break-free paragraphs joined by blank lines split back
      into exactly those paragraphs, and the card shows all three when the
      last one is not empty. */
  lemma ThreeParagraphsRoundTrip(a: string, h: string, d: string)
    requires '\n' !in a && '\n' !in h && '\n' !in d
    ensures Split(a + ParagraphBreak + h + ParagraphBreak + d, ParagraphBreak) == [a, h, d]
    ensures d != [] ==>
      View(a + ParagraphBreak + h + ParagraphBreak + d) == ResultView(a, Some(h), Some(d))
  {
    var parts := [a, h, d];
    assert Join(parts, ParagraphBreak) == a + ParagraphBreak + h + ParagraphBreak + d by {
      assert Join(parts[2..], ParagraphBreak) == d;
      assert parts[1..][1..] == parts[2..];
    }
    SplitJoin(parts, ParagraphBreak);
  }
}
