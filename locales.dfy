/**
 * The static table of display languages and the rule that picks the initial
 * language from the browser's language tag (app/page.tsx).
 */
module Locales {

  /** The display strings of one language. */
  datatype LocaleStrings = LocaleStrings(
    title: string,
    inputPlaceholder: string,
    submitButton: string,
    resultTitle: string,
    loadingMessages: seq<string>)

  /** The `languages` table, keyed by language code. */
  const Languages: map<string, LocaleStrings> := map[
    "en" := LocaleStrings(
      "Mind Reader 3000",
      "Enter text or number",
      "Read My Mind",
      "Mind Reading Result:",
      [ "Initializing mind-reading protocols...",
        "Scanning brainwaves...",
        "Decoding neural patterns...",
        "Analyzing thought structures...",
        "Extracting mental data...",
        "Processing cognitive information...",
        "Finalizing mind-reading process..." ]),
    "es" := LocaleStrings(
      "Lector Mental 3000",
      "Ingrese texto o número",
      "Leer Mi Mente",
      "Resultado de la Lectura Mental:",
      [ "Inicializando protocolos de lectura mental...",
        "Escaneando ondas cerebrales...",
        "Decodificando patrones neuronales...",
        "Analizando estructuras de pensamiento...",
        "Extrayendo datos mentales...",
        "Procesando información cognitiva...",
        "Finalizando proceso de lectura mental..." ]),
    "it" := LocaleStrings(
      "Lettore Mentale 3000",
      "Inserisci testo o numero",
      "Leggi la Mia Mente",
      "Risultato della Lettura Mentale:",
      [ "Inizializzazione dei protocolli di lettura mentale...",
        "Scansione delle onde cerebrali...",
        "Decodifica dei modelli neurali...",
        "Analisi delle strutture di pensiero...",
        "Estrazione dei dati mentali...",
        "Elaborazione delle informazioni cognitive...",
        "Finalizzazione del processo di lettura mentale..." ])
  ]

  /** `keyof typeof languages`: the codes the table defines. */
  type LanguageKey = code: string | code in Languages witness "en"

  /** The language used when nothing else is selected. */
  const Baseline: LanguageKey := "en"

  /** The table has exactly the keys en, es and it, each with seven phase messages. */
  lemma TableShape()
    ensures Languages.Keys == {"en", "es", "it"}
    ensures forall code: LanguageKey :: |Languages[code].loadingMessages| == 7
  {
  }

  /**
   * `tag.split("-")[0]`: the part of the tag before its first hyphen, or the
   * whole tag when it has none.
   */
  function PrimarySubtag(tag: string): (r: string)
    ensures '-' !in r
    ensures r <= tag
    ensures r == tag || tag[|r|] == '-'
  {
    if tag == [] || tag[0] == '-' then [] else [tag[0]] + PrimarySubtag(tag[1..])
  }

  /** The tag's primary subtag is `code`: the tag is `code` itself or starts with `code-`. */
  predicate HasPrimarySubtag(tag: string, code: string)
  {
    tag == code || code + "-" <= tag
  }

  /** The primary subtag of a tag is exactly the hyphen-free `p` it starts with. */
  lemma PrimarySubtagIs(tag: string, p: string)
    requires '-' !in p
    ensures PrimarySubtag(tag) == p <==> HasPrimarySubtag(tag, p)
  {
    var r := PrimarySubtag(tag);
    if r == p {
      if r != tag {
        assert tag[..|r| + 1] == r + "-";
      }
    }
    if HasPrimarySubtag(tag, p) {
      assert forall i :: 0 <= i < |p| ==> tag[i] == p[i] && p[i] != '-';
      assert |p| < |tag| ==> tag[|p|] == '-';
      assert |r| == |p|;
      assert r == tag[..|r|] == p;
    }
  }

  /**
   * The mount effect: the primary subtag of the browser tag when the table
   * has it, the baseline language otherwise.
   */
  function InferLanguage(tag: string): (r: LanguageKey)
    ensures r == PrimarySubtag(tag) || (r == Baseline && PrimarySubtag(tag) !in Languages)
  {
    var primary := PrimarySubtag(tag);
    if primary in Languages then primary else Baseline
  }

  /** A non-baseline code is chosen exactly when it is the tag's primary subtag (case-sensitively). */
  lemma InferLanguageAlternate(tag: string, code: LanguageKey)
    requires code != Baseline
    ensures InferLanguage(tag) == code <==> HasPrimarySubtag(tag, code)
  {
    TableShape();
    PrimarySubtagIs(tag, code);
  }

  /** The baseline is chosen exactly when the tag's primary subtag is neither es nor it. */
  lemma InferLanguageBaseline(tag: string)
    ensures InferLanguage(tag) == Baseline <==>
      !HasPrimarySubtag(tag, "es") && !HasPrimarySubtag(tag, "it")
  {
    TableShape();
    InferLanguageAlternate(tag, "es");
    InferLanguageAlternate(tag, "it");
  }

  /** Sample tags: a region suffix is ignored, case matters, unknown and empty tags fall back. */
  lemma InferLanguageExamples()
    ensures InferLanguage("es-MX") == "es"
    ensures InferLanguage("it") == "it"
    ensures InferLanguage("en-US") == "en"
    ensures InferLanguage("fr-FR") == "en"
    ensures InferLanguage("ES-mx") == "en"
    ensures InferLanguage("") == "en"
  {
    InferLanguageAlternate("es-MX", "es");
    InferLanguageAlternate("it", "it");
    InferLanguageBaseline("fr-FR");
    InferLanguageBaseline("ES-mx");
  }
}
