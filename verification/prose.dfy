/** The verbatim texts of the symptom decoder's canned answers (App.tsx).
    Each paragraph is the concatenation of short lines, each line a
    constant of its own with a lemma saying it holds no line break: the
    verifier checks a short literal cheaply, and a long one not at all. */
module Prose {

  /** The closing paragraph every result ends with. */
  const Disclaimer1: string := "IMPORTANTE: Esta pista es solo el"
  const Disclaimer2: string := " comienzo. Para desactivar el"
  const Disclaimer3: string := " programa biológico,"
  const Disclaimer4: string := " debemos viajar al momento exacto"
  const Disclaimer5: string := " del trauma en una sesión"
  const Disclaimer6: string := " personalizada."
  const Disclaimer: string :=
    Disclaimer1 + Disclaimer2 + Disclaimer3 + Disclaimer4 + Disclaimer5 + Disclaimer6

  /** The analysis paragraph of the General bundle. */
  const GeneralAnalysis1: string := "Tu biología está gestionando una"
  const GeneralAnalysis2: string := " carga emocional que la mente"
  const GeneralAnalysis3: string := " consciente ha ignorado. El"
  const GeneralAnalysis4: string := " síntoma es la respuesta de"
  const GeneralAnalysis5: string := " adaptación a un estrés vivido en"
  const GeneralAnalysis6: string := " soledad."
  const GeneralAnalysis: string :=
    GeneralAnalysis1 + GeneralAnalysis2 + GeneralAnalysis3 + GeneralAnalysis4 + GeneralAnalysis5 + GeneralAnalysis6

  /** The follow-up question of the General bundle. */
  const GeneralHook1: string := "¿Qué situación inesperada"
  const GeneralHook2: string := " viviste recientemente que"
  const GeneralHook3: string := " te dejó sin recursos para"
  const GeneralHook4: string := " reaccionar?"
  const GeneralHook: string :=
    GeneralHook1 + GeneralHook2 + GeneralHook3 + GeneralHook4

  /** The analysis paragraph of the Head bundle. */
  const HeadAnalysis1: string := "Conflicto de desvalorización"
  const HeadAnalysis2: string := " intelectual. Sucede cuando"
  const HeadAnalysis3: string := " 'calentamos' la mente buscando"
  const HeadAnalysis4: string := " una salida racional a un"
  const HeadAnalysis5: string := " problema emocional, o"
  const HeadAnalysis6: string := " cuando nos juzgamos"
  const HeadAnalysis7: string := " duramente."
  const HeadAnalysis: string :=
    HeadAnalysis1 + HeadAnalysis2 + HeadAnalysis3 + HeadAnalysis4 + HeadAnalysis5 + HeadAnalysis6 + HeadAnalysis7

  /** The follow-up question of the Head bundle. */
  const HeadHook1: string := "¿Estás controlando cada detalle para"
  const HeadHook2: string := " evitar un error, o te criticas"
  const HeadHook3: string := " despiadadamente por una decisión"
  const HeadHook4: string := " tomada?"
  const HeadHook: string :=
    HeadHook1 + HeadHook2 + HeadHook3 + HeadHook4

  /** The analysis paragraph of the Digestion bundle. */
  const DigestionAnalysis1: string := "Conflicto de 'bocado"
  const DigestionAnalysis2: string := " indigesto'. Has tenido que"
  const DigestionAnalysis3: string := " aceptar ('tragar') una"
  const DigestionAnalysis4: string := " situación, palabra o acción"
  const DigestionAnalysis5: string := " que consideras inaceptable,"
  const DigestionAnalysis6: string := " tóxica o injusta."
  const DigestionAnalysis: string :=
    DigestionAnalysis1 + DigestionAnalysis2 + DigestionAnalysis3 + DigestionAnalysis4 + DigestionAnalysis5 + DigestionAnalysis6

  /** The follow-up question of the Digestion bundle. */
  const DigestionHook1: string := "¿Qué 'sapo' te has tenido que tragar"
  const DigestionHook2: string := " recientemente en tu entorno"
  const DigestionHook3: string := " familiar o laboral para"
  const DigestionHook4: string := " evitar una guerra mayor?"
  const DigestionHook: string :=
    DigestionHook1 + DigestionHook2 + DigestionHook3 + DigestionHook4

  /** The analysis paragraph of the Liver bundle. */
  const LiverAnalysis1: string := "Miedo profundo a la carencia. El"
  const LiverAnalysis2: string := " hígado es el laboratorio del"
  const LiverAnalysis3: string := " cuerpo; acumula reservas cuando"
  const LiverAnalysis4: string := " el inconsciente percibe que"
  const LiverAnalysis5: string := " 'faltará' alimento, dinero"
  const LiverAnalysis6: string := " o fe."
  const LiverAnalysis: string :=
    LiverAnalysis1 + LiverAnalysis2 + LiverAnalysis3 + LiverAnalysis4 + LiverAnalysis5 + LiverAnalysis6

  /** The follow-up question of the Liver bundle. */
  const LiverHook1: string := "¿Te preocupa obsesivamente la"
  const LiverHook2: string := " estabilidad económica de tu"
  const LiverHook3: string := " familia o sientes que te falta el"
  const LiverHook4: string := " sustento esencial?"
  const LiverHook: string :=
    LiverHook1 + LiverHook2 + LiverHook3 + LiverHook4

  /** The analysis paragraph of the Throat bundle. */
  const ThroatAnalysis1: string := "Conflicto de la 'presa atrapada'."
  const ThroatAnalysis2: string := " Palabras que se quedaron en el"
  const ThroatAnalysis3: string := " umbral, gritos ahogados, o la"
  const ThroatAnalysis4: string := " imposibilidad de atrapar (o"
  const ThroatAnalysis5: string := " escupir) algo vital."
  const ThroatAnalysis: string :=
    ThroatAnalysis1 + ThroatAnalysis2 + ThroatAnalysis3 + ThroatAnalysis4 + ThroatAnalysis5

  /** The follow-up question of the Throat bundle. */
  const ThroatHook1: string := "¿Qué es eso tan importante que no"
  const ThroatHook2: string := " te atreviste a decir, o que"
  const ThroatHook3: string := " dijiste y ahora te arrepientes"
  const ThroatHook4: string := " profundamente?"
  const ThroatHook: string :=
    ThroatHook1 + ThroatHook2 + ThroatHook3 + ThroatHook4

  /** The analysis paragraph of the Lungs bundle. */
  const LungsAnalysis1: string := "Amenaza en el territorio o"
  const LungsAnalysis2: string := " miedo arcaico a morir. Sentir que"
  const LungsAnalysis3: string := " alguien nos asfixia, nos"
  const LungsAnalysis4: string := " invade o nos quita el aire"
  const LungsAnalysis5: string := " vital."
  const LungsAnalysis: string :=
    LungsAnalysis1 + LungsAnalysis2 + LungsAnalysis3 + LungsAnalysis4 + LungsAnalysis5

  /** The follow-up question of the Lungs bundle. */
  const LungsHook1: string := "¿Quién está invadiendo tu"
  const LungsHook2: string := " espacio personal de forma que"
  const LungsHook3: string := " sientes que te falta el aire"
  const LungsHook4: string := " para ser tú mismo?"
  const LungsHook: string :=
    LungsHook1 + LungsHook2 + LungsHook3 + LungsHook4

  /** The analysis paragraph of the Kidneys bundle. */
  const KidneysAnalysis1: string := "Conflicto de liquidez y"
  const KidneysAnalysis2: string := " referentes. Sentirse como"
  const KidneysAnalysis3: string := " 'pez fuera del agua',"
  const KidneysAnalysis4: string := " desmoronado, sin puntos de apoyo"
  const KidneysAnalysis5: string := " firmes, o miedo a perderlo todo."
  const KidneysAnalysis: string :=
    KidneysAnalysis1 + KidneysAnalysis2 + KidneysAnalysis3 + KidneysAnalysis4 + KidneysAnalysis5

  /** The follow-up question of the Kidneys bundle. */
  const KidneysHook1: string := "¿Te has sentido solo ante el"
  const KidneysHook2: string := " peligro, abandonado a tu"
  const KidneysHook3: string := " suerte o has perdido tus"
  const KidneysHook4: string := " puntos de referencia"
  const KidneysHook5: string := " vitales?"
  const KidneysHook: string :=
    KidneysHook1 + KidneysHook2 + KidneysHook3 + KidneysHook4 + KidneysHook5

  /** The analysis paragraph of the Skin bundle. */
  const SkinAnalysis1: string := "Conflicto de separación o"
  const SkinAnalysis2: string := " contacto impuesto. La piel"
  const SkinAnalysis3: string := " duele donde nos falta una caricia"
  const SkinAnalysis4: string := " deseada, o donde hemos recibido un"
  const SkinAnalysis5: string := " contacto desagradable."
  const SkinAnalysis: string :=
    SkinAnalysis1 + SkinAnalysis2 + SkinAnalysis3 + SkinAnalysis4 + SkinAnalysis5

  /** The follow-up question of the Skin bundle. */
  const SkinHook1: string := "¿A quién extrañas tocar"
  const SkinHook2: string := " desesperadamente, o de quién te"
  const SkinHook3: string := " gustaría separarte pero"
  const SkinHook4: string := " convives a diario obligadamente?"
  const SkinHook: string :=
    SkinHook1 + SkinHook2 + SkinHook3 + SkinHook4

  /** The analysis paragraph of the Bones bundle. */
  const BonesAnalysis1: string := "Desvalorización profunda del ser."
  const BonesAnalysis2: string := " 'No valgo', 'no soy capaz', 'no"
  const BonesAnalysis3: string := " puedo soportar esta carga'. El"
  const BonesAnalysis4: string := " hueso se afecta cuando perdemos"
  const BonesAnalysis5: string := " valor ante nuestros propios"
  const BonesAnalysis6: string := " ojos."
  const BonesAnalysis: string :=
    BonesAnalysis1 + BonesAnalysis2 + BonesAnalysis3 + BonesAnalysis4 + BonesAnalysis5 + BonesAnalysis6

  /** The follow-up question of the Bones bundle. */
  const BonesHook1: string := "¿En qué pilar fundamental de tu"
  const BonesHook2: string := " vida sientes que te estás"
  const BonesHook3: string := " desmoronando o que no eres capaz"
  const BonesHook4: string := " de 'dar la talla'?"
  const BonesHook: string :=
    BonesHook1 + BonesHook2 + BonesHook3 + BonesHook4

  /** The analysis paragraph of the Muscles bundle. */
  const MusclesAnalysis1: string := "Impotencia en la acción. La"
  const MusclesAnalysis2: string := " energía para luchar o huir se"
  const MusclesAnalysis3: string := " ha bloqueado. 'Quiero golpear y"
  const MusclesAnalysis4: string := " no puedo', 'quiero irme y"
  const MusclesAnalysis5: string := " debo quedarme'."
  const MusclesAnalysis: string :=
    MusclesAnalysis1 + MusclesAnalysis2 + MusclesAnalysis3 + MusclesAnalysis4 + MusclesAnalysis5

  /** The follow-up question of the Muscles bundle. */
  const MusclesHook1: string := "¿Hacia dónde te impulsa tu"
  const MusclesHook2: string := " instinto biológico, pero"
  const MusclesHook3: string := " tu mente racional te frena en seco?"
  const MusclesHook: string :=
    MusclesHook1 + MusclesHook2 + MusclesHook3

  /** The analysis paragraph of the Heart bundle. */
  const HeartAnalysis1: string := "Desvalorización por amor o"
  const HeartAnalysis2: string := " territorio. El corazón bombea la"
  const HeartAnalysis3: string := " vida (sangre/familia)."
  const HeartAnalysis4: string := " Conflictos de 'quiero que"
  const HeartAnalysis5: string := " alguien vuelva a casa' o 'quiero"
  const HeartAnalysis6: string := " defender mi territorio'."
  const HeartAnalysis: string :=
    HeartAnalysis1 + HeartAnalysis2 + HeartAnalysis3 + HeartAnalysis4 + HeartAnalysis5 + HeartAnalysis6

  /** The follow-up question of the Heart bundle. */
  const HeartHook1: string := "¿Por quién te duele el corazón,"
  const HeartHook2: string := " o qué miembro de la familia te"
  const HeartHook3: string := " está exigiendo un esfuerzo"
  const HeartHook4: string := " sobrehumano para mantener la"
  const HeartHook5: string := " unión?"
  const HeartHook: string :=
    HeartHook1 + HeartHook2 + HeartHook3 + HeartHook4 + HeartHook5

  /** The analysis paragraph of the Eyes bundle. */
  const EyesAnalysis1: string := "Miedo en la nuca (peligro por"
  const EyesAnalysis2: string := " detrás) o negación visual."
  const EyesAnalysis3: string := " 'No quiero ver lo que pasa en mi"
  const EyesAnalysis4: string := " casa', o 'tengo miedo de perder"
  const EyesAnalysis5: string := " de vista a alguien'."
  const EyesAnalysis: string :=
    EyesAnalysis1 + EyesAnalysis2 + EyesAnalysis3 + EyesAnalysis4 + EyesAnalysis5

  /** The follow-up question of the Eyes bundle. */
  const EyesHook1: string := "¿Qué realidad dolorosa tienes"
  const EyesHook2: string := " delante de tus narices y"
  const EyesHook3: string := " prefieres ignorar para no sufrir?"
  const EyesHook: string :=
    EyesHook1 + EyesHook2 + EyesHook3

  /** The analysis paragraph of the Ears bundle. */
  const EarsAnalysis1: string := "Conflicto de audición. 'No"
  const EarsAnalysis2: string := " puedo creer lo que oigo'."
  const EarsAnalysis3: string := " Palabras tóxicas, críticas"
  const EarsAnalysis4: string := " constantes, o un silencio"
  const EarsAnalysis5: string := " sepulcral donde debería haber una"
  const EarsAnalysis6: string := " voz."
  const EarsAnalysis: string :=
    EarsAnalysis1 + EarsAnalysis2 + EarsAnalysis3 + EarsAnalysis4 + EarsAnalysis5 + EarsAnalysis6

  /** The follow-up question of the Ears bundle. */
  const EarsHook1: string := "¿Qué frase hiriente se"
  const EarsHook2: string := " repite en tu cabeza, o qué 'te"
  const EarsHook3: string := " quiero' estás esperando y nunca"
  const EarsHook4: string := " llega?"
  const EarsHook: string :=
    EarsHook1 + EarsHook2 + EarsHook3 + EarsHook4

  /** The analysis paragraph of the Mouth bundle. */
  const MouthAnalysis1: string := "Conflicto de agresividad"
  const MouthAnalysis2: string := " contenida. No poder 'mostrar"
  const MouthAnalysis3: string := " los dientes'. Dificultad para"
  const MouthAnalysis4: string := " atrapar lo que es tuyo o defenderte"
  const MouthAnalysis5: string := " de una agresión."
  const MouthAnalysis: string :=
    MouthAnalysis1 + MouthAnalysis2 + MouthAnalysis3 + MouthAnalysis4 + MouthAnalysis5

  /** The follow-up question of the Mouth bundle. */
  const MouthHook1: string := "¿A quién tienes ganas de morder"
  const MouthHook2: string := " (defenderte) pero te obligas a"
  const MouthHook3: string := " sonreír por educación o"
  const MouthHook4: string := " sumisión?"
  const MouthHook: string :=
    MouthHook1 + MouthHook2 + MouthHook3 + MouthHook4

  /** The analysis paragraph of the Female bundle. */
  const FemaleAnalysis1: string := "Conflicto de identidad"
  const FemaleAnalysis2: string := " femenina, pérdida o nido. Problemas"
  const FemaleAnalysis3: string := " en la relación con la pareja,"
  const FemaleAnalysis4: string := " los hijos o la propia"
  const FemaleAnalysis5: string := " feminidad/sexualidad."
  const FemaleAnalysis: string :=
    FemaleAnalysis1 + FemaleAnalysis2 + FemaleAnalysis3 + FemaleAnalysis4 + FemaleAnalysis5

  /** The follow-up question of the Female bundle. */
  const FemaleHook1: string := "¿Sientes que tu rol de mujer o"
  const FemaleHook2: string := " madre está en entredicho, o has"
  const FemaleHook3: string := " vivido un conflicto de"
  const FemaleHook4: string := " separación con un hijo o pareja?"
  const FemaleHook: string :=
    FemaleHook1 + FemaleHook2 + FemaleHook3 + FemaleHook4

  /** The analysis paragraph of the Male bundle. */
  const MaleAnalysis1: string := "Conflicto de identidad"
  const MaleAnalysis2: string := " masculina, potencia o"
  const MaleAnalysis3: string := " territorio. Miedo a no ser"
  const MaleAnalysis4: string := " suficiente hombre para proteger el"
  const MaleAnalysis5: string := " clan o satisfacer a la pareja."
  const MaleAnalysis: string :=
    MaleAnalysis1 + MaleAnalysis2 + MaleAnalysis3 + MaleAnalysis4 + MaleAnalysis5

  /** The follow-up question of the Male bundle. */
  const MaleHook1: string := "¿En qué situación sientes que has"
  const MaleHook2: string := " perdido tu poder o que no eres"
  const MaleHook3: string := " respetado como la autoridad en tu"
  const MaleHook4: string := " territorio?"
  const MaleHook: string :=
    MaleHook1 + MaleHook2 + MaleHook3 + MaleHook4

  // No paragraph contains a line break, because none of its lines does.

  lemma DisclaimerOneLine() ensures '\n' !in Disclaimer
  {
    Disclaimer1OneLine();
    Disclaimer2OneLine();
    Disclaimer3OneLine();
    Disclaimer4OneLine();
    Disclaimer5OneLine();
    Disclaimer6OneLine();
  }

  lemma Disclaimer1OneLine() ensures '\n' !in Disclaimer1 {}
  lemma Disclaimer2OneLine() ensures '\n' !in Disclaimer2 {}
  lemma Disclaimer3OneLine() ensures '\n' !in Disclaimer3 {}
  lemma Disclaimer4OneLine() ensures '\n' !in Disclaimer4 {}
  lemma Disclaimer5OneLine() ensures '\n' !in Disclaimer5 {}
  lemma Disclaimer6OneLine() ensures '\n' !in Disclaimer6 {}

  lemma GeneralAnalysisOneLine() ensures '\n' !in GeneralAnalysis
  {
    GeneralAnalysis1OneLine();
    GeneralAnalysis2OneLine();
    GeneralAnalysis3OneLine();
    GeneralAnalysis4OneLine();
    GeneralAnalysis5OneLine();
    GeneralAnalysis6OneLine();
  }

  lemma GeneralAnalysis1OneLine() ensures '\n' !in GeneralAnalysis1 {}
  lemma GeneralAnalysis2OneLine() ensures '\n' !in GeneralAnalysis2 {}
  lemma GeneralAnalysis3OneLine() ensures '\n' !in GeneralAnalysis3 {}
  lemma GeneralAnalysis4OneLine() ensures '\n' !in GeneralAnalysis4 {}
  lemma GeneralAnalysis5OneLine() ensures '\n' !in GeneralAnalysis5 {}
  lemma GeneralAnalysis6OneLine() ensures '\n' !in GeneralAnalysis6 {}

  lemma GeneralHookOneLine() ensures '\n' !in GeneralHook
  {
    GeneralHook1OneLine();
    GeneralHook2OneLine();
    GeneralHook3OneLine();
    GeneralHook4OneLine();
  }

  lemma GeneralHook1OneLine() ensures '\n' !in GeneralHook1 {}
  lemma GeneralHook2OneLine() ensures '\n' !in GeneralHook2 {}
  lemma GeneralHook3OneLine() ensures '\n' !in GeneralHook3 {}
  lemma GeneralHook4OneLine() ensures '\n' !in GeneralHook4 {}

  lemma HeadAnalysisOneLine() ensures '\n' !in HeadAnalysis
  {
    HeadAnalysis1OneLine();
    HeadAnalysis2OneLine();
    HeadAnalysis3OneLine();
    HeadAnalysis4OneLine();
    HeadAnalysis5OneLine();
    HeadAnalysis6OneLine();
    HeadAnalysis7OneLine();
  }

  lemma HeadAnalysis1OneLine() ensures '\n' !in HeadAnalysis1 {}
  lemma HeadAnalysis2OneLine() ensures '\n' !in HeadAnalysis2 {}
  lemma HeadAnalysis3OneLine() ensures '\n' !in HeadAnalysis3 {}
  lemma HeadAnalysis4OneLine() ensures '\n' !in HeadAnalysis4 {}
  lemma HeadAnalysis5OneLine() ensures '\n' !in HeadAnalysis5 {}
  lemma HeadAnalysis6OneLine() ensures '\n' !in HeadAnalysis6 {}
  lemma HeadAnalysis7OneLine() ensures '\n' !in HeadAnalysis7 {}

  lemma HeadHookOneLine() ensures '\n' !in HeadHook
  {
    HeadHook1OneLine();
    HeadHook2OneLine();
    HeadHook3OneLine();
    HeadHook4OneLine();
  }

  lemma HeadHook1OneLine() ensures '\n' !in HeadHook1 {}
  lemma HeadHook2OneLine() ensures '\n' !in HeadHook2 {}
  lemma HeadHook3OneLine() ensures '\n' !in HeadHook3 {}
  lemma HeadHook4OneLine() ensures '\n' !in HeadHook4 {}

  lemma DigestionAnalysisOneLine() ensures '\n' !in DigestionAnalysis
  {
    DigestionAnalysis1OneLine();
    DigestionAnalysis2OneLine();
    DigestionAnalysis3OneLine();
    DigestionAnalysis4OneLine();
    DigestionAnalysis5OneLine();
    DigestionAnalysis6OneLine();
  }

  lemma DigestionAnalysis1OneLine() ensures '\n' !in DigestionAnalysis1 {}
  lemma DigestionAnalysis2OneLine() ensures '\n' !in DigestionAnalysis2 {}
  lemma DigestionAnalysis3OneLine() ensures '\n' !in DigestionAnalysis3 {}
  lemma DigestionAnalysis4OneLine() ensures '\n' !in DigestionAnalysis4 {}
  lemma DigestionAnalysis5OneLine() ensures '\n' !in DigestionAnalysis5 {}
  lemma DigestionAnalysis6OneLine() ensures '\n' !in DigestionAnalysis6 {}

  lemma DigestionHookOneLine() ensures '\n' !in DigestionHook
  {
    DigestionHook1OneLine();
    DigestionHook2OneLine();
    DigestionHook3OneLine();
    DigestionHook4OneLine();
  }

  lemma DigestionHook1OneLine() ensures '\n' !in DigestionHook1 {}
  lemma DigestionHook2OneLine() ensures '\n' !in DigestionHook2 {}
  lemma DigestionHook3OneLine() ensures '\n' !in DigestionHook3 {}
  lemma DigestionHook4OneLine() ensures '\n' !in DigestionHook4 {}

  lemma LiverAnalysisOneLine() ensures '\n' !in LiverAnalysis
  {
    LiverAnalysis1OneLine();
    LiverAnalysis2OneLine();
    LiverAnalysis3OneLine();
    LiverAnalysis4OneLine();
    LiverAnalysis5OneLine();
    LiverAnalysis6OneLine();
  }

  lemma LiverAnalysis1OneLine() ensures '\n' !in LiverAnalysis1 {}
  lemma LiverAnalysis2OneLine() ensures '\n' !in LiverAnalysis2 {}
  lemma LiverAnalysis3OneLine() ensures '\n' !in LiverAnalysis3 {}
  lemma LiverAnalysis4OneLine() ensures '\n' !in LiverAnalysis4 {}
  lemma LiverAnalysis5OneLine() ensures '\n' !in LiverAnalysis5 {}
  lemma LiverAnalysis6OneLine() ensures '\n' !in LiverAnalysis6 {}

  lemma LiverHookOneLine() ensures '\n' !in LiverHook
  {
    LiverHook1OneLine();
    LiverHook2OneLine();
    LiverHook3OneLine();
    LiverHook4OneLine();
  }

  lemma LiverHook1OneLine() ensures '\n' !in LiverHook1 {}
  lemma LiverHook2OneLine() ensures '\n' !in LiverHook2 {}
  lemma LiverHook3OneLine() ensures '\n' !in LiverHook3 {}
  lemma LiverHook4OneLine() ensures '\n' !in LiverHook4 {}

  lemma ThroatAnalysisOneLine() ensures '\n' !in ThroatAnalysis
  {
    ThroatAnalysis1OneLine();
    ThroatAnalysis2OneLine();
    ThroatAnalysis3OneLine();
    ThroatAnalysis4OneLine();
    ThroatAnalysis5OneLine();
  }

  lemma ThroatAnalysis1OneLine() ensures '\n' !in ThroatAnalysis1 {}
  lemma ThroatAnalysis2OneLine() ensures '\n' !in ThroatAnalysis2 {}
  lemma ThroatAnalysis3OneLine() ensures '\n' !in ThroatAnalysis3 {}
  lemma ThroatAnalysis4OneLine() ensures '\n' !in ThroatAnalysis4 {}
  lemma ThroatAnalysis5OneLine() ensures '\n' !in ThroatAnalysis5 {}

  lemma ThroatHookOneLine() ensures '\n' !in ThroatHook
  {
    ThroatHook1OneLine();
    ThroatHook2OneLine();
    ThroatHook3OneLine();
    ThroatHook4OneLine();
  }

  lemma ThroatHook1OneLine() ensures '\n' !in ThroatHook1 {}
  lemma ThroatHook2OneLine() ensures '\n' !in ThroatHook2 {}
  lemma ThroatHook3OneLine() ensures '\n' !in ThroatHook3 {}
  lemma ThroatHook4OneLine() ensures '\n' !in ThroatHook4 {}

  lemma LungsAnalysisOneLine() ensures '\n' !in LungsAnalysis
  {
    LungsAnalysis1OneLine();
    LungsAnalysis2OneLine();
    LungsAnalysis3OneLine();
    LungsAnalysis4OneLine();
    LungsAnalysis5OneLine();
  }

  lemma LungsAnalysis1OneLine() ensures '\n' !in LungsAnalysis1 {}
  lemma LungsAnalysis2OneLine() ensures '\n' !in LungsAnalysis2 {}
  lemma LungsAnalysis3OneLine() ensures '\n' !in LungsAnalysis3 {}
  lemma LungsAnalysis4OneLine() ensures '\n' !in LungsAnalysis4 {}
  lemma LungsAnalysis5OneLine() ensures '\n' !in LungsAnalysis5 {}

  lemma LungsHookOneLine() ensures '\n' !in LungsHook
  {
    LungsHook1OneLine();
    LungsHook2OneLine();
    LungsHook3OneLine();
    LungsHook4OneLine();
  }

  lemma LungsHook1OneLine() ensures '\n' !in LungsHook1 {}
  lemma LungsHook2OneLine() ensures '\n' !in LungsHook2 {}
  lemma LungsHook3OneLine() ensures '\n' !in LungsHook3 {}
  lemma LungsHook4OneLine() ensures '\n' !in LungsHook4 {}

  lemma KidneysAnalysisOneLine() ensures '\n' !in KidneysAnalysis
  {
    KidneysAnalysis1OneLine();
    KidneysAnalysis2OneLine();
    KidneysAnalysis3OneLine();
    KidneysAnalysis4OneLine();
    KidneysAnalysis5OneLine();
  }

  lemma KidneysAnalysis1OneLine() ensures '\n' !in KidneysAnalysis1 {}
  lemma KidneysAnalysis2OneLine() ensures '\n' !in KidneysAnalysis2 {}
  lemma KidneysAnalysis3OneLine() ensures '\n' !in KidneysAnalysis3 {}
  lemma KidneysAnalysis4OneLine() ensures '\n' !in KidneysAnalysis4 {}
  lemma KidneysAnalysis5OneLine() ensures '\n' !in KidneysAnalysis5 {}

  lemma KidneysHookOneLine() ensures '\n' !in KidneysHook
  {
    KidneysHook1OneLine();
    KidneysHook2OneLine();
    KidneysHook3OneLine();
    KidneysHook4OneLine();
    KidneysHook5OneLine();
  }

  lemma KidneysHook1OneLine() ensures '\n' !in KidneysHook1 {}
  lemma KidneysHook2OneLine() ensures '\n' !in KidneysHook2 {}
  lemma KidneysHook3OneLine() ensures '\n' !in KidneysHook3 {}
  lemma KidneysHook4OneLine() ensures '\n' !in KidneysHook4 {}
  lemma KidneysHook5OneLine() ensures '\n' !in KidneysHook5 {}

  lemma SkinAnalysisOneLine() ensures '\n' !in SkinAnalysis
  {
    SkinAnalysis1OneLine();
    SkinAnalysis2OneLine();
    SkinAnalysis3OneLine();
    SkinAnalysis4OneLine();
    SkinAnalysis5OneLine();
  }

  lemma SkinAnalysis1OneLine() ensures '\n' !in SkinAnalysis1 {}
  lemma SkinAnalysis2OneLine() ensures '\n' !in SkinAnalysis2 {}
  lemma SkinAnalysis3OneLine() ensures '\n' !in SkinAnalysis3 {}
  lemma SkinAnalysis4OneLine() ensures '\n' !in SkinAnalysis4 {}
  lemma SkinAnalysis5OneLine() ensures '\n' !in SkinAnalysis5 {}

  lemma SkinHookOneLine() ensures '\n' !in SkinHook
  {
    SkinHook1OneLine();
    SkinHook2OneLine();
    SkinHook3OneLine();
    SkinHook4OneLine();
  }

  lemma SkinHook1OneLine() ensures '\n' !in SkinHook1 {}
  lemma SkinHook2OneLine() ensures '\n' !in SkinHook2 {}
  lemma SkinHook3OneLine() ensures '\n' !in SkinHook3 {}
  lemma SkinHook4OneLine() ensures '\n' !in SkinHook4 {}

  lemma BonesAnalysisOneLine() ensures '\n' !in BonesAnalysis
  {
    BonesAnalysis1OneLine();
    BonesAnalysis2OneLine();
    BonesAnalysis3OneLine();
    BonesAnalysis4OneLine();
    BonesAnalysis5OneLine();
    BonesAnalysis6OneLine();
  }

  lemma BonesAnalysis1OneLine() ensures '\n' !in BonesAnalysis1 {}
  lemma BonesAnalysis2OneLine() ensures '\n' !in BonesAnalysis2 {}
  lemma BonesAnalysis3OneLine() ensures '\n' !in BonesAnalysis3 {}
  lemma BonesAnalysis4OneLine() ensures '\n' !in BonesAnalysis4 {}
  lemma BonesAnalysis5OneLine() ensures '\n' !in BonesAnalysis5 {}
  lemma BonesAnalysis6OneLine() ensures '\n' !in BonesAnalysis6 {}

  lemma BonesHookOneLine() ensures '\n' !in BonesHook
  {
    BonesHook1OneLine();
    BonesHook2OneLine();
    BonesHook3OneLine();
    BonesHook4OneLine();
  }

  lemma BonesHook1OneLine() ensures '\n' !in BonesHook1 {}
  lemma BonesHook2OneLine() ensures '\n' !in BonesHook2 {}
  lemma BonesHook3OneLine() ensures '\n' !in BonesHook3 {}
  lemma BonesHook4OneLine() ensures '\n' !in BonesHook4 {}

  lemma MusclesAnalysisOneLine() ensures '\n' !in MusclesAnalysis
  {
    MusclesAnalysis1OneLine();
    MusclesAnalysis2OneLine();
    MusclesAnalysis3OneLine();
    MusclesAnalysis4OneLine();
    MusclesAnalysis5OneLine();
  }

  lemma MusclesAnalysis1OneLine() ensures '\n' !in MusclesAnalysis1 {}
  lemma MusclesAnalysis2OneLine() ensures '\n' !in MusclesAnalysis2 {}
  lemma MusclesAnalysis3OneLine() ensures '\n' !in MusclesAnalysis3 {}
  lemma MusclesAnalysis4OneLine() ensures '\n' !in MusclesAnalysis4 {}
  lemma MusclesAnalysis5OneLine() ensures '\n' !in MusclesAnalysis5 {}

  lemma MusclesHookOneLine() ensures '\n' !in MusclesHook
  {
    MusclesHook1OneLine();
    MusclesHook2OneLine();
    MusclesHook3OneLine();
  }

  lemma MusclesHook1OneLine() ensures '\n' !in MusclesHook1 {}
  lemma MusclesHook2OneLine() ensures '\n' !in MusclesHook2 {}
  lemma MusclesHook3OneLine() ensures '\n' !in MusclesHook3 {}

  lemma HeartAnalysisOneLine() ensures '\n' !in HeartAnalysis
  {
    HeartAnalysis1OneLine();
    HeartAnalysis2OneLine();
    HeartAnalysis3OneLine();
    HeartAnalysis4OneLine();
    HeartAnalysis5OneLine();
    HeartAnalysis6OneLine();
  }

  lemma HeartAnalysis1OneLine() ensures '\n' !in HeartAnalysis1 {}
  lemma HeartAnalysis2OneLine() ensures '\n' !in HeartAnalysis2 {}
  lemma HeartAnalysis3OneLine() ensures '\n' !in HeartAnalysis3 {}
  lemma HeartAnalysis4OneLine() ensures '\n' !in HeartAnalysis4 {}
  lemma HeartAnalysis5OneLine() ensures '\n' !in HeartAnalysis5 {}
  lemma HeartAnalysis6OneLine() ensures '\n' !in HeartAnalysis6 {}

  lemma HeartHookOneLine() ensures '\n' !in HeartHook
  {
    HeartHook1OneLine();
    HeartHook2OneLine();
    HeartHook3OneLine();
    HeartHook4OneLine();
    HeartHook5OneLine();
  }

  lemma HeartHook1OneLine() ensures '\n' !in HeartHook1 {}
  lemma HeartHook2OneLine() ensures '\n' !in HeartHook2 {}
  lemma HeartHook3OneLine() ensures '\n' !in HeartHook3 {}
  lemma HeartHook4OneLine() ensures '\n' !in HeartHook4 {}
  lemma HeartHook5OneLine() ensures '\n' !in HeartHook5 {}

  lemma EyesAnalysisOneLine() ensures '\n' !in EyesAnalysis
  {
    EyesAnalysis1OneLine();
    EyesAnalysis2OneLine();
    EyesAnalysis3OneLine();
    EyesAnalysis4OneLine();
    EyesAnalysis5OneLine();
  }

  lemma EyesAnalysis1OneLine() ensures '\n' !in EyesAnalysis1 {}
  lemma EyesAnalysis2OneLine() ensures '\n' !in EyesAnalysis2 {}
  lemma EyesAnalysis3OneLine() ensures '\n' !in EyesAnalysis3 {}
  lemma EyesAnalysis4OneLine() ensures '\n' !in EyesAnalysis4 {}
  lemma EyesAnalysis5OneLine() ensures '\n' !in EyesAnalysis5 {}

  lemma EyesHookOneLine() ensures '\n' !in EyesHook
  {
    EyesHook1OneLine();
    EyesHook2OneLine();
    EyesHook3OneLine();
  }

  lemma EyesHook1OneLine() ensures '\n' !in EyesHook1 {}
  lemma EyesHook2OneLine() ensures '\n' !in EyesHook2 {}
  lemma EyesHook3OneLine() ensures '\n' !in EyesHook3 {}

  lemma EarsAnalysisOneLine() ensures '\n' !in EarsAnalysis
  {
    EarsAnalysis1OneLine();
    EarsAnalysis2OneLine();
    EarsAnalysis3OneLine();
    EarsAnalysis4OneLine();
    EarsAnalysis5OneLine();
    EarsAnalysis6OneLine();
  }

  lemma EarsAnalysis1OneLine() ensures '\n' !in EarsAnalysis1 {}
  lemma EarsAnalysis2OneLine() ensures '\n' !in EarsAnalysis2 {}
  lemma EarsAnalysis3OneLine() ensures '\n' !in EarsAnalysis3 {}
  lemma EarsAnalysis4OneLine() ensures '\n' !in EarsAnalysis4 {}
  lemma EarsAnalysis5OneLine() ensures '\n' !in EarsAnalysis5 {}
  lemma EarsAnalysis6OneLine() ensures '\n' !in EarsAnalysis6 {}

  lemma EarsHookOneLine() ensures '\n' !in EarsHook
  {
    EarsHook1OneLine();
    EarsHook2OneLine();
    EarsHook3OneLine();
    EarsHook4OneLine();
  }

  lemma EarsHook1OneLine() ensures '\n' !in EarsHook1 {}
  lemma EarsHook2OneLine() ensures '\n' !in EarsHook2 {}
  lemma EarsHook3OneLine() ensures '\n' !in EarsHook3 {}
  lemma EarsHook4OneLine() ensures '\n' !in EarsHook4 {}

  lemma MouthAnalysisOneLine() ensures '\n' !in MouthAnalysis
  {
    MouthAnalysis1OneLine();
    MouthAnalysis2OneLine();
    MouthAnalysis3OneLine();
    MouthAnalysis4OneLine();
    MouthAnalysis5OneLine();
  }

  lemma MouthAnalysis1OneLine() ensures '\n' !in MouthAnalysis1 {}
  lemma MouthAnalysis2OneLine() ensures '\n' !in MouthAnalysis2 {}
  lemma MouthAnalysis3OneLine() ensures '\n' !in MouthAnalysis3 {}
  lemma MouthAnalysis4OneLine() ensures '\n' !in MouthAnalysis4 {}
  lemma MouthAnalysis5OneLine() ensures '\n' !in MouthAnalysis5 {}

  lemma MouthHookOneLine() ensures '\n' !in MouthHook
  {
    MouthHook1OneLine();
    MouthHook2OneLine();
    MouthHook3OneLine();
    MouthHook4OneLine();
  }

  lemma MouthHook1OneLine() ensures '\n' !in MouthHook1 {}
  lemma MouthHook2OneLine() ensures '\n' !in MouthHook2 {}
  lemma MouthHook3OneLine() ensures '\n' !in MouthHook3 {}
  lemma MouthHook4OneLine() ensures '\n' !in MouthHook4 {}

  lemma FemaleAnalysisOneLine() ensures '\n' !in FemaleAnalysis
  {
    FemaleAnalysis1OneLine();
    FemaleAnalysis2OneLine();
    FemaleAnalysis3OneLine();
    FemaleAnalysis4OneLine();
    FemaleAnalysis5OneLine();
  }

  lemma FemaleAnalysis1OneLine() ensures '\n' !in FemaleAnalysis1 {}
  lemma FemaleAnalysis2OneLine() ensures '\n' !in FemaleAnalysis2 {}
  lemma FemaleAnalysis3OneLine() ensures '\n' !in FemaleAnalysis3 {}
  lemma FemaleAnalysis4OneLine() ensures '\n' !in FemaleAnalysis4 {}
  lemma FemaleAnalysis5OneLine() ensures '\n' !in FemaleAnalysis5 {}

  lemma FemaleHookOneLine() ensures '\n' !in FemaleHook
  {
    FemaleHook1OneLine();
    FemaleHook2OneLine();
    FemaleHook3OneLine();
    FemaleHook4OneLine();
  }

  lemma FemaleHook1OneLine() ensures '\n' !in FemaleHook1 {}
  lemma FemaleHook2OneLine() ensures '\n' !in FemaleHook2 {}
  lemma FemaleHook3OneLine() ensures '\n' !in FemaleHook3 {}
  lemma FemaleHook4OneLine() ensures '\n' !in FemaleHook4 {}

  lemma MaleAnalysisOneLine() ensures '\n' !in MaleAnalysis
  {
    MaleAnalysis1OneLine();
    MaleAnalysis2OneLine();
    MaleAnalysis3OneLine();
    MaleAnalysis4OneLine();
    MaleAnalysis5OneLine();
  }

  lemma MaleAnalysis1OneLine() ensures '\n' !in MaleAnalysis1 {}
  lemma MaleAnalysis2OneLine() ensures '\n' !in MaleAnalysis2 {}
  lemma MaleAnalysis3OneLine() ensures '\n' !in MaleAnalysis3 {}
  lemma MaleAnalysis4OneLine() ensures '\n' !in MaleAnalysis4 {}
  lemma MaleAnalysis5OneLine() ensures '\n' !in MaleAnalysis5 {}

  lemma MaleHookOneLine() ensures '\n' !in MaleHook
  {
    MaleHook1OneLine();
    MaleHook2OneLine();
    MaleHook3OneLine();
    MaleHook4OneLine();
  }

  lemma MaleHook1OneLine() ensures '\n' !in MaleHook1 {}
  lemma MaleHook2OneLine() ensures '\n' !in MaleHook2 {}
  lemma MaleHook3OneLine() ensures '\n' !in MaleHook3 {}
  lemma MaleHook4OneLine() ensures '\n' !in MaleHook4 {}

}
