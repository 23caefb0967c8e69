/** The language tables the prompt builders look names up in.  Every table
    is a Python `dict` read with `.get(key, "English")`. */
module Languages {
  import opened Common

  /** `d.get(key, default)` */
  function Get(d: map<string, string>, key: string, default: string): (r: string)
    ensures key in d ==> r == d[key]
    ensures key !in d ==> r == default
  {
    if key in d then d[key] else default
  }

  /** The nine ISO 639-1 codes of the backend's `lang_map`, upper case. */
  const CodeNames: map<string, string> := map[
    "AR" := "Arabic", "DE" := "German", "ES" := "Spanish",
    "EN" := "English", "FR" := "French", "IT" := "Italian",
    "JA" := "Japanese", "RU" := "Russian", "ZH" := "Chinese"]

  /** The three codes of the older `lang_map` under src/process/. */
  const LegacyCodeNames: map<string, string> := map["ZH" := "Chinese", "EN" := "English", "FR" := "French"]

  /** The translation table of the backend: native language name to English name. */
  const NativeNames: map<string, string> := map[
    "العربية" := "Arabic", "Deutsch" := "German", "Español" := "Spanish",
    "English" := "English", "Français" := "French", "Italiano" := "Italian",
    "日本語" := "Japanese", "Русский язык" := "Russian", "中文" := "Chinese"]

  /** The five-entry translation table of the older module. */
  const LegacyNativeNames: map<string, string> := map[
    "Deutsch" := "German", "English" := "English", "Français" := "French",
    "Русский язык" := "Russian", "中文" := "Chinese"]

  /** The English names the nine-code and native-name tables map to. */
  const LanguageNames: set<string> := {
    "Arabic", "German", "Spanish", "English", "French", "Italian", "Japanese", "Russian", "Chinese"}

  /** `lang_map.get(code, "English")` over the nine-code table. */
  function CodeName(code: string): (r: string)
    ensures code in CodeNames ==> r == CodeNames[code]
    ensures r in LanguageNames
    ensures r == "English" <==> code == "EN" || code !in CodeNames
  {
    Get(CodeNames, code, "English")
  }

  /** `lang_map.get(code.upper(), "English")`: the lookup ignores ASCII case. */
  function CodeNameIgnoringCase(code: string): (r: string)
    ensures Upper(code) in CodeNames ==> r == CodeNames[Upper(code)]
    ensures r in LanguageNames
    ensures r == "English" <==> Upper(code) == "EN" || Upper(code) !in CodeNames
  {
    CodeName(Upper(code))
  }

  /** The nine codes, written in lower case, give the names of the table. */
  lemma LowerCaseCodesAreFound()
    ensures CodeNameIgnoringCase("fr") == "French" && CodeNameIgnoringCase("zh") == "Chinese"
    ensures CodeNameIgnoringCase("ar") == "Arabic" && CodeNameIgnoringCase("de") == "German"
    ensures CodeNameIgnoringCase("es") == "Spanish" && CodeNameIgnoringCase("it") == "Italian"
    ensures CodeNameIgnoringCase("ja") == "Japanese" && CodeNameIgnoringCase("ru") == "Russian"
    ensures CodeNameIgnoringCase("en") == "English"
  {
    assert Upper("fr") == "FR" && Upper("zh") == "ZH" && Upper("ar") == "AR";
    assert Upper("de") == "DE" && Upper("es") == "ES" && Upper("it") == "IT";
    assert Upper("ja") == "JA" && Upper("ru") == "RU" && Upper("en") == "EN";
  }

  /** `lang_map.get(code.upper(), "English")` over the three-code table. */
  function LegacyCodeName(code: string): (r: string)
    ensures Upper(code) in LegacyCodeNames ==> r == LegacyCodeNames[Upper(code)]
    ensures r in {"Chinese", "English", "French"}
    ensures r == "English" <==> Upper(code) !in {"ZH", "FR"}
  {
    Get(LegacyCodeNames, Upper(code), "English")
  }

  /** `lang_map.get(target_language, "English")` over the native-name table; exact match. */
  function NativeName(name: string): (r: string)
    ensures name in NativeNames ==> r == NativeNames[name]
    ensures r in LanguageNames
    ensures r == "English" <==> name == "English" || name !in NativeNames
  {
    Get(NativeNames, name, "English")
  }

  /** The older five-entry native-name lookup. */
  function LegacyNativeName(name: string): (r: string)
    ensures name in LegacyNativeNames ==> r == LegacyNativeNames[name]
    ensures r in {"German", "English", "French", "Russian", "Chinese"}
    ensures r == "English" <==> name == "English" || name !in LegacyNativeNames
  {
    Get(LegacyNativeNames, name, "English")
  }

  /** The older table is the newer one restricted to five of its names. */
  lemma LegacyNativeTableIsSubTable(name: string)
    requires name in LegacyNativeNames
    ensures LegacyNativeName(name) == NativeName(name)
  {
  }
}

/** Filling an instruction template: `template.replace(ph1, v1).replace(ph2, v2)`. */
module Templates {
  import opened Common

  const LearnLanguage := "[LEARN_LANGUAGE]"
  const ProfLanguage := "[PROF_LANGUAGE]"
  const TargetLanguage := "[TARGET_LANGUAGE]"

  function Fill(template: string, ph1: string, v1: string, ph2: string, v2: string): string
    requires |ph1| > 0 && |ph2| > 0
  {
    ReplaceAll(ReplaceAll(template, ph1, v1), ph2, v2)
  }

  /** Filling cuts the template at every occurrence of the first placeholder,
      joins the pieces with its value, then does the same for the second;
      no piece left between two replacements still holds its placeholder. */
  lemma FillReplacesEveryPlaceholder(template: string, ph1: string, v1: string, ph2: string, v2: string)
    requires |ph1| > 0 && |ph2| > 0
    ensures var mid := Join(Split(template, ph1), v1);
      && Fill(template, ph1, v1, ph2, v2) == Join(Split(mid, ph2), v2)
      && (forall k :: 0 <= k < |Split(template, ph1)| ==> !Occurs(Split(template, ph1)[k], ph1))
      && (forall k :: 0 <= k < |Split(mid, ph2)| ==> !Occurs(Split(mid, ph2)[k], ph2))
  {
    ReplaceIsJoinOfSplit(template, ph1, v1);
    var mid := ReplaceAll(template, ph1, v1);
    ReplaceIsJoinOfSplit(mid, ph2, v2);
    SplitPiecesFree(template, ph1);
    SplitPiecesFree(mid, ph2);
  }

  /** A template without placeholders is used as it is. */
  lemma FillWithoutPlaceholders(template: string, ph1: string, v1: string, ph2: string, v2: string)
    requires |ph1| > 0 && |ph2| > 0
    requires !Occurs(template, ph1) && !Occurs(template, ph2)
    ensures Fill(template, ph1, v1, ph2, v2) == template
  {
    ReplaceAbsent(template, ph1, v1);
    ReplaceAbsent(template, ph2, v2);
  }

  /** Filling the placeholders with themselves gives the template back. */
  lemma FillWithPlaceholdersIsIdentity(template: string, ph1: string, ph2: string)
    requires |ph1| > 0 && |ph2| > 0
    ensures Fill(template, ph1, ph1, ph2, ph2) == template
  {
    SplitJoinRoundTrip(template, ph1);
    SplitJoinRoundTrip(template, ph2);
  }
}
