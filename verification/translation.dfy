/** The localized action words a recorded step is written with. */
module Translation {
  import opened Common

  /** The languages every row of the table covers. */
  const Languages: set<string> := {"en", "de", "fr", "es", "zh"}

  /** action key -> language code -> word. */
  const Translations: map<string, map<string, string>> := map[
    "click" := map["en" := "Click", "de" := "Klick", "fr" := "Clic", "es" := "Clic",
                   "zh" := "\U{70B9}\U{51FB}"],
    "input" := map["en" := "Input", "de" := "Eingabe", "fr" := "Saisie", "es" := "Entrada",
                   "zh" := "\U{8F93}\U{5165}"],
    "navigate" := map["en" := "Navigate to", "de" := "Navigieren zu", "fr" := "Naviguer vers",
                      "es" := "Navegar a", "zh" := "\U{5BFC}\U{822A}\U{81F3}"],
    "on" := map["en" := "on", "de" := "auf", "fr" := "sur", "es" := "en", "zh" := "\U{5728}"]
  ]

  /** Every row has an entry for each language, and no entry is empty (so the truthiness tests of
      `translate` only ever fail for a missing entry). */
  lemma TableComplete(key: string)
    requires key in Translations
    ensures Translations[key].Keys == Languages
    ensures forall lang :: lang in Translations[key] ==> Translations[key][lang] != ""
  {
  }

  /** `translate(key)` while the recording language is `lang`: the entry for `lang` when the row has a
      non-empty one, otherwise the English entry (or the key itself should that be missing too); a key
      with no row throws, because `translations[key]['en']` reads a property of `undefined`. The table
      is a plain map here: keys and languages naming inherited object properties are not modelled. */
  function Translate(key: string, lang: string): (r: Outcome<string>)
    ensures r.Throws? <==> key !in Translations
    ensures key in Translations && lang in Languages ==> r == Returns(Translations[key][lang])
    ensures key in Translations && lang !in Languages ==> r == Returns(Translations[key]["en"])
  {
    if key in Translations then TableComplete(key); Localize(Translations[key], key, lang)
    else Throws("TypeError: cannot read property 'en' of undefined")
  }

  /** The lookup in one row, with the two truthiness tests of the source. */
  function Localize(row: map<string, string>, key: string, lang: string): Outcome<string>
  {
    if lang in row && row[lang] != "" then Returns(row[lang])
    else if "en" in row && row["en"] != "" then Returns(row["en"])
    else Returns(key)
  }

  /** The word for a key the recorder uses; such a key never throws. */
  function Word(key: string, lang: string): string
    requires key in Translations
  {
    Translate(key, lang).value
  }

  /** A language without a column reads the English column. */
  lemma {:induction false} FallbackIsEnglish(key: string, lang: string)
    requires key in Translations && lang !in Languages
    ensures Translate(key, lang) == Translate(key, "en")
  {
    TableComplete(key);
  }

  /** The documented examples: German click, an unknown language, an unknown key. */
  lemma TranslateExamples()
    ensures Translate("click", "de") == Returns("Klick")
    ensures Translate("click", "xx") == Returns("Click")
    ensures Translate("unknown-key", "en").Throws?
  {
  }

  /** No word contains a double quote. */
  lemma {:induction false} WordsHaveNoQuote(key: string, lang: string)
    requires key in Translations
    ensures '"' !in Word(key, lang)
  {
    TableComplete(key);
  }

  /** In every language other than English (and its fallback) the click, input and navigate words
      differ from the English words "Click", "Input" and "Navigate to". */
  lemma {:induction false} ForeignActionWords(key: string, lang: string)
    requires key in {"click", "input", "navigate"}
    requires lang in Languages - {"en"}
    ensures Word(key, lang) !in {"Click", "Input", "Navigate to"}
  {
    TableComplete(key);
  }

  /** In English, or any language without a column, the action words are the English ones. */
  lemma {:induction false} EnglishActionWords(lang: string)
    requires lang == "en" || lang !in Languages
    ensures Word("click", lang) == "Click" && Word("input", lang) == "Input"
    ensures Word("navigate", lang) == "Navigate to" && Word("on", lang) == "on"
  {
    TableComplete("click");
    TableComplete("input");
    TableComplete("navigate");
    TableComplete("on");
  }
}
