/**
 * The ICD-10 (CIE10) tables of the catalog: the chapter letters with their
 * descriptions, and the curated codes in the order the catalog lists them,
 * which is grouped by first letter.  The code literal names N76 twice; as a
 * Python dict it keeps N76 at its first position with the second
 * description, and the tables below have it that way.
 */
module Cie10Tables {
  /** The 25 chapter letters in catalog order ('U' is not one of them). */
  const ChapterLetters: seq<char> := ['A', 'B', 'C', 'D', 'E', 'F', 'G', 'H', 'I', 'J', 'K', 'L', 'M', 'N', 'O', 'P', 'Q', 'R', 'S', 'T', 'V', 'W', 'X', 'Y', 'Z']

  /** The chapter descriptions, in the order of `ChapterLetters`. */
  const ChapterTitles: seq<string> := [
    "Enfermedades infecciosas y parasitarias (A00-B99)",
    "Enfermedades infecciosas y parasitarias (A00-B99)",
    "Neoplasias (C00-D48)",
    "Enfermedades de la sangre y neoplasias (C00-D89)",
    "Enfermedades endocrinas, nutricionales y metabólicas (E00-E90)",
    "Trastornos mentales y del comportamiento (F00-F99)",
    "Enfermedades del sistema nervioso (G00-G99)",
    "Enfermedades del ojo y sus anexos / del oído (H00-H95)",
    "Enfermedades del sistema circulatorio (I00-I99)",
    "Enfermedades del sistema respiratorio (J00-J99)",
    "Enfermedades del sistema digestivo (K00-K93)",
    "Enfermedades de la piel y tejido subcutáneo (L00-L99)",
    "Enfermedades del sistema osteomuscular (M00-M99)",
    "Enfermedades del sistema genitourinario (N00-N99)",
    "Embarazo, parto y puerperio (O00-O99)",
    "Afecciones del período perinatal (P00-P96)",
    "Malformaciones congénitas (Q00-Q99)",
    "Síntomas y signos no clasificados (R00-R99)",
    "Traumatismos (S00-T98)",
    "Traumatismos y envenenamientos (S00-T98)",
    "Causas externas de morbilidad y mortalidad (V01-Y98)",
    "Causas externas de morbilidad y mortalidad (V01-Y98)",
    "Causas externas de morbilidad y mortalidad (V01-Y98)",
    "Causas externas de morbilidad y mortalidad (V01-Y98)",
    "Factores que influyen en el estado de salud (Z00-Z99)"
  ]

  const ACodes: seq<string> := ["A00", "A000", "A001", "A009", "A01", "A02", "A06", "A062", "A08", "A085", "A09", "A09X"]
  const BCodes: seq<string> := ["B33", "B338", "B34", "B348", "B57", "B572", "B86X"]
  const DCodes: seq<string> := ["D24X", "D50", "D509"]
  const ECodes: seq<string> := ["E11", "E119", "E28", "E282", "E66", "E660", "E78", "E784", "E785"]
  const GCodes: seq<string> := ["G20X", "G43", "G439", "G47", "G470", "G59", "G590"]
  const HCodes: seq<string> := ["H10", "H109", "H40", "H409", "H52", "H526"]
  const ICodes: seq<string> := ["I10X", "I25", "I49", "I498", "I50", "I509", "I86", "I868"]
  const JCodes: seq<string> := ["J00X", "J02", "J029", "J03", "J039", "J06", "J069", "J18", "J189", "J46X"]
  const KCodes: seq<string> := ["K02", "K021", "K04", "K046", "K05", "K050", "K12", "K120", "K29", "K297", "K30X"]
  const LCodes: seq<string> := ["L03", "L030", "L20", "L209", "L50", "L509"]
  const MCodes: seq<string> := ["M25", "M255", "M54", "M545", "M79", "M796"]
  const NCodes: seq<string> := ["N39", "N390", "N76", "N92", "N920"]
  const OCodes: seq<string> := ["O23"]
  const RCodes: seq<string> := ["R00", "R000", "R04", "R042", "R10", "R103", "R104", "R11X", "R42X", "R50", "R509", "R51X", "R52", "R68", "R688"]
  const ZCodes: seq<string> := ["Z00", "Z000", "Z01", "Z012", "Z018", "Z12", "Z125", "Z23", "Z238", "Z30", "Z308", "Z34", "Z348", "Z35", "Z359", "Z95", "Z955"]

  /** The catalog's codes, in insertion order. */
  const CodeKeys: seq<string> :=
    ACodes + BCodes + DCodes + ECodes + GCodes + HCodes + ICodes + JCodes + KCodes + LCodes + MCodes + NCodes + OCodes + RCodes + ZCodes

  /** The description of each code, in the order of `CodeKeys`. */
  const CodeTitles: seq<string> := [
    "Cólera",
    "Cólera debido a Vibrio cholerae 01, biotipo cholerae",
    "Cólera debido a Vibrio cholerae 01, biotipo El Tor",
    "Cólera, no especificado",
    "Fiebres tifoidea y paratifoidea",
    "Otras infecciones debidas a Salmonella",
    "Amebiasis",
    "Colitis amebiana",
    "Infecciones intestinales debidas a virus",
    "Otras infecciones intestinales virales especificadas",
    "Diarrea y gastroenteritis de presunto origen infeccioso",
    "Diarrea y gastroenteritis de presunto origen infeccioso",
    "Otras enfermedades virales",
    "Otras enfermedades virales especificadas",
    "Infección viral de sitio no especificado",
    "Otras infecciones virales de sitio no especificado",
    "Enfermedad de Chagas",
    "Enfermedad de Chagas (crónica) que afecta el corazón",
    "Escabiosis",
    "Neoplasia benigna de la mama",
    "Anemias por deficiencia de hierro",
    "Anemia por deficiencia de hierro, sin otra especificación",
    "Diabetes mellitus no insulinodependiente",
    "Diabetes mellitus no insulinodependiente, sin mención de complicación",
    "Disfunción ovárica",
    "Síndrome de ovarios poliquísticos",
    "Obesidad",
    "Obesidad debida a exceso de calorías",
    "Trastornos del metabolismo de las lipoproteínas",
    "Otras hiperlipidemias",
    "Hiperlipidemia, no especificada",
    "Enfermedad de Parkinson",
    "Migraña",
    "Migraña, no especificada",
    "Trastornos del sueño",
    "Trastornos de inicio y mantenimiento del sueño [insomnio]",
    "Mononeuropatías",
    "Mononeuropatía diabética",
    "Conjuntivitis",
    "Conjuntivitis, no especificada",
    "Glaucoma",
    "Glaucoma, no especificado",
    "Trastornos de la acomodación y de la refracción",
    "Otros trastornos de la refracción",
    "Hipertensión esencial (primaria)",
    "Enfermedad isquémica crónica del corazón",
    "Otras arritmias cardíacas",
    "Otras arritmias cardíacas especificadas",
    "Insuficiencia cardíaca",
    "Insuficiencia cardíaca, no especificada",
    "Várices de otros sitios",
    "Várices de otros sitios especificados",
    "Rinofaringitis aguda [resfriado común]",
    "Faringitis aguda",
    "Faringitis aguda, no especificada",
    "Amigdalitis aguda",
    "Amigdalitis aguda, no especificada",
    "Infecciones agudas de las vías respiratorias superiores",
    "Infección aguda de las vías respiratorias superiores, no especificada",
    "Neumonía, organismo no especificado",
    "Neumonía, no especificada",
    "Estado asmático",
    "Caries dental",
    "Caries de la dentina",
    "Enfermedades de la pulpa y de los tejidos periapicales",
    "Absceso periapical con fístula",
    "Gingivitis y enfermedades periodontales",
    "Gingivitis aguda",
    "Estomatitis y lesiones afines",
    "Estomatitis aftosa recurrente",
    "Gastritis y duodenitis",
    "Gastritis, no especificada",
    "Dispepsia",
    "Celulitis",
    "Celulitis de dedos de la mano y del pie",
    "Dermatitis atópica",
    "Dermatitis atópica, no especificada",
    "Urticaria",
    "Urticaria, no especificada",
    "Otros trastornos articulares",
    "Dolor en articulación",
    "Dorsalgia",
    "Lumbago no especificado",
    "Otros trastornos de los tejidos blandos",
    "Dolor en miembro",
    "Otros trastornos del sistema urinario",
    "Infección de vías urinarias, sitio no especificado",
    "Vaginitis aguda",
    "Menstruación excesiva, frecuente e irregular",
    "Menstruación excesiva y frecuente con ciclo regular",
    "Infecciones de las vías genitourinarias en el embarazo",
    "Anormalidades del latido cardíaco",
    "Taquicardia, no especificada",
    "Hemorragia de las vías respiratorias",
    "Hemoptisis",
    "Dolor abdominal y pélvico",
    "Dolor localizado en otras partes inferiores del abdomen",
    "Otros dolores abdominales y los no especificados",
    "Náusea y vómito",
    "Mareo y desvanecimiento",
    "Fiebre de origen desconocido",
    "Fiebre, no especificada",
    "Cefalea",
    "Dolor, no clasificado en otra parte",
    "Otros síntomas y signos generales",
    "Otros síntomas y signos generales especificados",
    "Examen general e investigación de personas sin quejas o sin diagnóstico informado",
    "Examen médico general",
    "Otros exámenes especiales e investigaciones en personas sin quejas o sin diagnóstico informado",
    "Examen odontológico",
    "Otros exámenes especiales especificados",
    "Examen especial de pesquisa de neoplasias",
    "Examen especial de pesquisa de otras neoplasias",
    "Necesidad de inmunización contra enfermedad bacteriana única",
    "Necesidad de inmunización contra otras enfermedades bacterianas únicas",
    "Atención para la anticoncepción",
    "Otras atenciones especificadas para la anticoncepción",
    "Supervisión de embarazo normal",
    "Supervisión de otro embarazo normal",
    "Supervisión de embarazo de alto riesgo",
    "Supervisión de embarazo de alto riesgo, sin otra especificación",
    "Presencia de implantes e injertos cardíacos y vasculares",
    "Presencia de implante e injerto de angioplastia coronaria"
  ]

  /** Every code of `codes` is non-empty and starts with `c`. */
  predicate AllStartWith(codes: seq<string>, c: char)
  {
    forall i :: 0 <= i < |codes| ==> codes[i] != [] && codes[i][0] == c
  }

  lemma ACodesStart()
    ensures AllStartWith(ACodes, 'A')
  {
  }

  lemma BCodesStart()
    ensures AllStartWith(BCodes, 'B')
  {
  }

  lemma DCodesStart()
    ensures AllStartWith(DCodes, 'D')
  {
  }

  lemma ECodesStart()
    ensures AllStartWith(ECodes, 'E')
  {
  }

  lemma GCodesStart()
    ensures AllStartWith(GCodes, 'G')
  {
  }

  lemma HCodesStart()
    ensures AllStartWith(HCodes, 'H')
  {
  }

  lemma ICodesStart()
    ensures AllStartWith(ICodes, 'I')
  {
  }

  lemma JCodesStart()
    ensures AllStartWith(JCodes, 'J')
  {
  }

  lemma KCodesStart()
    ensures AllStartWith(KCodes, 'K')
  {
  }

  lemma LCodesStart()
    ensures AllStartWith(LCodes, 'L')
  {
  }

  lemma MCodesStart()
    ensures AllStartWith(MCodes, 'M')
  {
  }

  lemma NCodesStart()
    ensures AllStartWith(NCodes, 'N')
  {
  }

  lemma OCodesStart()
    ensures AllStartWith(OCodes, 'O')
  {
  }

  lemma RCodesStart()
    ensures AllStartWith(RCodes, 'R')
  {
  }

  lemma ZCodesStart()
    ensures AllStartWith(ZCodes, 'Z')
  {
  }

}
