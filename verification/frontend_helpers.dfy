/** frontend/src/utils/helpers.ts and its older JavaScript twin helpers.js:
    display names for language codes and date formatting. The locale
    formatting itself is a parameter. */
module FrontendHelpers {
  import opened Common

  /** The `labels` table of `getLanguageLabel`: each language in its own name. */
  const Labels: map<string, string> := map["zh" := "\U{4E2D}\U{6587}", "en" := "English", "fr" := "Fran\U{E7}ais"]
  /** The `names` table of `getLanguageName`: each language's English name. */
  const Names: map<string, string> := map["zh" := "Chinese", "en" := "English", "fr" := "French"]

  /** The codes both tables know. */
  predicate Known(lang: string) {
    lang == "zh" || lang == "en" || lang == "fr"
  }

  /** `table[lang] || lang`: the entry when it is present and not empty,
      otherwise the code itself. */
  function Lookup(table: map<string, string>, lang: string): (r: string)
    ensures lang in table && table[lang] != "" ==> r == table[lang]
    ensures !(lang in table && table[lang] != "") ==> r == lang
    ensures r == "" ==> lang == ""
  {
    if lang in table && table[lang] != "" then table[lang] else lang
  }

  /** `getLanguageLabel(lang)`: the language's own name, or the code itself. */
  function LanguageLabel(lang: string): (r: string)
    ensures Known(lang) ==> r == Labels[lang] && r != "" && r != lang
    ensures !Known(lang) ==> r == lang
  {
    Lookup(Labels, lang)
  }

  /** `getLanguageName(lang)`: the English name, or the code itself. */
  function LanguageName(lang: string): (r: string)
    ensures Known(lang) ==> r == Names[lang] && r != "" && r != lang
    ensures !Known(lang) ==> r == lang
  {
    Lookup(Names, lang)
  }

  /** The two tables cover the same codes: a code falls through one exactly
      when it falls through the other. */
  lemma TablesCoverTheSameCodes(lang: string)
    ensures LanguageLabel(lang) == lang <==> LanguageName(lang) == lang
  {
  }

  /** Both tables agree on English and on nothing else. */
  lemma TablesAgreeOnlyOnEnglish(lang: string)
    ensures Known(lang) ==> (LanguageLabel(lang) == LanguageName(lang) <==> lang == "en")
  {
  }

  /** Lookup is case-sensitive: a code holding an upper-case letter is shown
      as it is. */
  lemma UpperCaseCodesFallThrough(lang: string, i: nat)
    requires i < |lang| && 'A' <= lang[i] <= 'Z'
    ensures LanguageLabel(lang) == lang && LanguageName(lang) == lang
  {
  }

  /** `new Date(timestamp).toLocale…String(…)`: the formatter applied to the
      timestamp, or to `undefined`. */
  type Formatter = Option<string> -> string

  /** `formatDate`/`formatTime` in helpers.ts: a missing or empty timestamp
      gives "" without calling the formatter. */
  function FormatStamp(timestamp: Option<string>, format: Formatter): (r: string)
    ensures timestamp.None? || timestamp.value == "" ==> r == ""
    ensures timestamp.Some? && timestamp.value != "" ==> r == format(timestamp)
  {
    if timestamp.None? || timestamp.value == "" then "" else format(timestamp)
  }

  /** `formatDate`/`formatTime` in helpers.js: no guard, every timestamp is
      handed to the formatter. */
  function FormatStampUnguarded(timestamp: Option<string>, format: Formatter): string
  {
    format(timestamp)
  }

  /** The two versions agree on every timestamp that is present and non-empty,
      and the TypeScript one differs only by answering "" on the others. */
  lemma GuardOnlyAffectsMissingStamps(timestamp: Option<string>, format: Formatter)
    ensures timestamp.Some? && timestamp.value != "" ==>
      FormatStamp(timestamp, format) == FormatStampUnguarded(timestamp, format)
    ensures FormatStamp(timestamp, format) != FormatStampUnguarded(timestamp, format) ==>
      (timestamp.None? || timestamp.value == "") && FormatStamp(timestamp, format) == ""
  {
  }
}
