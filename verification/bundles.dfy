/** The sixteen canned answers of the symptom decoder (App.tsx): for each
    rule of the chain, and for the default, an analysis paragraph and a
    follow-up question, plus the disclaimer every result ends with. The
    texts themselves live in the Prose module; the decoder only needs to
    know that none of them contains a line break. */
module Bundles {
  import opened Prose

  /** One category per rule of the chain, in the chain's order, plus the
      default used when no rule matches. */
  datatype Category =
    | Head | Digestion | Liver | Throat | Lungs | Kidneys | Skin | Bones
    | Muscles | Heart | Eyes | Ears | Mouth | Female | Male
    | General

  /** The analysis paragraph of each category. */
  function Analysis(c: Category): string
  {
    match c
    case Head => HeadAnalysis
    case Digestion => DigestionAnalysis
    case Liver => LiverAnalysis
    case Throat => ThroatAnalysis
    case Lungs => LungsAnalysis
    case Kidneys => KidneysAnalysis
    case Skin => SkinAnalysis
    case Bones => BonesAnalysis
    case Muscles => MusclesAnalysis
    case Heart => HeartAnalysis
    case Eyes => EyesAnalysis
    case Ears => EarsAnalysis
    case Mouth => MouthAnalysis
    case Female => FemaleAnalysis
    case Male => MaleAnalysis
    case General => GeneralAnalysis
  }

  /** The follow-up question of each category. */
  function Hook(c: Category): string
  {
    match c
    case Head => HeadHook
    case Digestion => DigestionHook
    case Liver => LiverHook
    case Throat => ThroatHook
    case Lungs => LungsHook
    case Kidneys => KidneysHook
    case Skin => SkinHook
    case Bones => BonesHook
    case Muscles => MusclesHook
    case Heart => HeartHook
    case Eyes => EyesHook
    case Ears => EarsHook
    case Mouth => MouthHook
    case Female => FemaleHook
    case Male => MaleHook
    case General => GeneralHook
  }

  /** No analysis paragraph contains a line break. */
  lemma AnalysisOneLine(c: Category)
    ensures '\n' !in Analysis(c)
  {
    match c
    case Head => HeadAnalysisOneLine();
    case Digestion => DigestionAnalysisOneLine();
    case Liver => LiverAnalysisOneLine();
    case Throat => ThroatAnalysisOneLine();
    case Lungs => LungsAnalysisOneLine();
    case Kidneys => KidneysAnalysisOneLine();
    case Skin => SkinAnalysisOneLine();
    case Bones => BonesAnalysisOneLine();
    case Muscles => MusclesAnalysisOneLine();
    case Heart => HeartAnalysisOneLine();
    case Eyes => EyesAnalysisOneLine();
    case Ears => EarsAnalysisOneLine();
    case Mouth => MouthAnalysisOneLine();
    case Female => FemaleAnalysisOneLine();
    case Male => MaleAnalysisOneLine();
    case General => GeneralAnalysisOneLine();
  }

  /** No follow-up question contains a line break. */
  lemma HookOneLine(c: Category)
    ensures '\n' !in Hook(c)
  {
    match c
    case Head => HeadHookOneLine();
    case Digestion => DigestionHookOneLine();
    case Liver => LiverHookOneLine();
    case Throat => ThroatHookOneLine();
    case Lungs => LungsHookOneLine();
    case Kidneys => KidneysHookOneLine();
    case Skin => SkinHookOneLine();
    case Bones => BonesHookOneLine();
    case Muscles => MusclesHookOneLine();
    case Heart => HeartHookOneLine();
    case Eyes => EyesHookOneLine();
    case Ears => EarsHookOneLine();
    case Mouth => MouthHookOneLine();
    case Female => FemaleHookOneLine();
    case Male => MaleHookOneLine();
    case General => GeneralHookOneLine();
  }
}
