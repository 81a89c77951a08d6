/** The dashboard's translation lookup, shared by every page:
    `texts[key]?.[language] || texts[key]?.en || key`. */
module I18n {

  import opened Text

  datatype Language = En | Es | Fr | OtherLanguage(code: String)

  /** The three translations of one text; an empty one counts as missing. */
  datatype Texts = Texts(en: String, es: String, fr: String)

  function InLanguage(t: Texts, lang: Language): String {
    match lang
    case En => t.en
    case Es => t.es
    case Fr => t.fr
    case OtherLanguage(_) => ""
  }

  /** The text for `key` in `lang`; failing that the English text; failing
      that the key itself. */
  function GetText(table: map<String, Texts>, key: String, lang: Language): (r: String)
    ensures key !in table ==> r == key
    ensures key in table && InLanguage(table[key], lang) != [] ==> r == InLanguage(table[key], lang)
    ensures key in table && InLanguage(table[key], lang) == [] && table[key].en != [] ==> r == table[key].en
    ensures key != [] ==> r != []
  {
    if key !in table then key
    else
      var t := table[key];
      if InLanguage(t, lang) != [] then InLanguage(t, lang)
      else if t.en != [] then t.en
      else key
  }

  /** The language a stored code names. */
  function LanguageOf(code: String): (r: Language)
    ensures r.OtherLanguage? <==> code !in {"en", "es", "fr"}
  {
    if code == "en" then En else if code == "es" then Es else if code == "fr" then Fr else OtherLanguage(code)
  }

  /** The relative-time and date texts test for English and Spanish and use
      French for every other code. */
  function TimeTextLanguage(code: String): (r: Language)
    ensures r == En <==> code == "en"
    ensures r == Es <==> code == "es"
    ensures code != "en" && code != "es" ==> r == Fr
  {
    if code == "en" then En else if code == "es" then Es else Fr
  }

  /** A language the table does not know reads English. */
  lemma UnknownLanguageReadsEnglish(table: map<String, Texts>, key: String, code: String)
    ensures GetText(table, key, OtherLanguage(code)) == GetText(table, key, En)
  {}
}
