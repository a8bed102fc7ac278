/** The fixed table of recognition languages and the fallback to Dutch
    applied to any language code the table does not hold. */
module Languages {
  import opened Strings

  /** The fallback language code. */
  const Dutch: string := "nl-NL"

  /** The language codes of the table, in the order they are listed. */
  const Codes: seq<string> := [
    "nl-NL", "en-US", "en-GB", "de-DE", "fr-FR", "es-ES", "it-IT",
    "pt-PT", "pt-BR", "ru-RU", "ja-JP", "zh-CN", "ko-KR"
  ]

  /** `supported_languages()`: language code to display name. The pt-BR
      name is kept exactly as the source file spells it (its "ë" is stored
      as the two characters U+00C3 U+00AB). */
  function SupportedLanguages(): (m: map<string, string>)
    ensures m.Keys == set c | c in Codes
    ensures Dutch in m && m[Dutch] == "Nederlands"
  {
    map[
      "nl-NL" := "Nederlands",
      "en-US" := "Engels (VS)",
      "en-GB" := "Engels (VK)",
      "de-DE" := "Duits",
      "fr-FR" := "Frans",
      "es-ES" := "Spaans",
      "it-IT" := "Italiaans",
      "pt-PT" := "Portugees (Portugal)",
      "pt-BR" := "Portugees (Brazili\U{00C3}\U{00AB})",
      "ru-RU" := "Russisch",
      "ja-JP" := "Japans",
      "zh-CN" := "Chinees (Vereenvoudigd)",
      "ko-KR" := "Koreaans"
    ]
  }

  predicate Supported(language: string) {
    language in SupportedLanguages()
  }

  /** The language a transcription actually uses: the requested code when
      the table holds it, Dutch otherwise. */
  function NormaliseLanguage(language: string): (r: string)
    ensures Supported(r)
    ensures Supported(language) ==> r == language
    ensures !Supported(language) ==> r == Dutch
  {
    if Supported(language) then language else Dutch
  }

  /** Normalising an already normalised language changes nothing. */
  lemma NormaliseIdempotent(language: string)
    ensures NormaliseLanguage(NormaliseLanguage(language)) == NormaliseLanguage(language)
  {
  }

  /** The table has exactly thirteen entries. */
  lemma SupportedCount()
    ensures |SupportedLanguages()| == 13
  {
  }

  /** Among the supported languages only Dutch has a code starting "nl". */
  lemma DutchPrefixOnlyDutch(language: string)
    requires Supported(language)
    ensures StartsWith(language, "nl") <==> language == Dutch
  {
    if StartsWith(language, "nl") {
      assert language[0] == language[..2][0] == 'n';
    } else {
      assert Dutch[..2] == "nl";
    }
  }
}
