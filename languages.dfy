/** The languages of the search index (Indexer::LANGUAGES). */
module Languages {
  import opened Collections

  const LANGUAGES: seq<string> :=
    ["en", "de", "br", "cs", "es", "fa", "fr", "ja", "lv", "nl", "pl", "ru", "sr", "zh"]

  /** Every language code has two letters and none is listed twice. */
  lemma LanguagesAreDistinctCodes()
    ensures |LANGUAGES| == 14
    ensures forall i :: 0 <= i < |LANGUAGES| ==> |LANGUAGES[i]| == 2
    ensures NoDuplicates(LANGUAGES)
  {
  }
}
