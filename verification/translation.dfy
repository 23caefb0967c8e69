/** `get_translation` of backend/process/translation.py. */
module Translation {
  import opened Common
  import Languages
  import Templates
  import opened GeminiGuards

  /** `SYS_PROMPT_TRANSLATION`. */
  const TranslationPrompt := "\nYou are an expert translator.\nYour sole purpose is to accurately and faithfully translate the provided text into the [TARGET_LANGUAGE].\nDo not add any extra information, explanations, or stylistic changes.\nMaintain the original meaning and tone as closely as possible.\n"

  /** `SYS_PROMPT_TRANSLATION.replace("[TARGET_LANGUAGE]", tar_lang)`: the
      prompt cut at each placeholder and rejoined with the language name. */
  function Instruction(languageName: string): (r: string)
    ensures r == Join(Split(TranslationPrompt, Templates.TargetLanguage), languageName)
    ensures forall k :: 0 <= k < |Split(TranslationPrompt, Templates.TargetLanguage)| ==>
      !Occurs(Split(TranslationPrompt, Templates.TargetLanguage)[k], Templates.TargetLanguage)
  {
    ReplaceIsJoinOfSplit(TranslationPrompt, Templates.TargetLanguage, languageName);
    SplitPiecesFree(TranslationPrompt, Templates.TargetLanguage);
    ReplaceAll(TranslationPrompt, Templates.TargetLanguage, languageName)
  }

  /** Filling in the placeholder itself gives the prompt back. */
  lemma InstructionRoundTrip()
    ensures Instruction(Templates.TargetLanguage) == TranslationPrompt
  {
    SplitJoinRoundTrip(TranslationPrompt, Templates.TargetLanguage);
  }

  /** `get_translation(text, api_key, target_language)`: the target is named
      natively and looked up exactly as given. */
  function GetTranslation(text: string, apiKey: string, targetLanguage: string, client: Outcome<Chat>): (r: Outcome<string>)
    ensures apiKey == "" ==> r == Ok(MissingKey)
    ensures apiKey != "" && text == "" ==> r == Ok(MissingText)
    ensures apiKey != "" && text != "" && client.Raised? ==> r == Ok("ERROR: " + Str(client.exc))
    ensures apiKey != "" && text != "" && client.Ok? ==>
      r == client.value(Instruction(Languages.NativeName(targetLanguage)), text)
  {
    match Prepare(apiKey, text, client)
    case Done(message) => Ok(message)
    case Ready(chat) => chat(Instruction(Languages.NativeName(targetLanguage)), text)
  }

  /** The instruction names English for any target outside the table, and the
      table's English name for a target inside it. */
  lemma InstructionNamesTheTarget(text: string, apiKey: string, target: string, chat: Chat)
    requires apiKey != "" && text != ""
    ensures target !in Languages.NativeNames ==>
      GetTranslation(text, apiKey, target, Ok(chat)) == chat(Instruction("English"), text)
    ensures target in Languages.NativeNames ==>
      GetTranslation(text, apiKey, target, Ok(chat)) == chat(Instruction(Languages.NativeNames[target]), text)
  {
  }
}

/** `get_translaton` of src/process/translation.py: the five-entry table and
    no `try` around the client. */
module LegacyTranslation {
  import opened Common
  import Languages
  import Translation
  import opened GeminiGuards

  function GetTranslation(text: string, apiKey: string, targetLanguage: string, client: Outcome<Chat>): (r: Outcome<string>)
    ensures apiKey == "" ==> r == Ok(MissingKey)
    ensures apiKey != "" && text == "" ==> r == Ok(MissingText)
    ensures apiKey != "" && text != "" && client.Raised? ==> r == Raised(client.exc)
    ensures apiKey != "" && text != "" && client.Ok? ==>
      r == client.value(Translation.Instruction(Languages.LegacyNativeName(targetLanguage)), text)
  {
    match PrepareUnguarded(apiKey, text, client)
    case Raised(e) => Raised(e)
    case Ok(Done(message)) => Ok(message)
    case Ok(Ready(chat)) => chat(Translation.Instruction(Languages.LegacyNativeName(targetLanguage)), text)
  }

  /** On the five languages both tables know, the two versions agree whenever
      the client is built. */
  lemma AgreesWithBackend(text: string, apiKey: string, target: string, chat: Chat)
    requires target in Languages.LegacyNativeNames
    ensures GetTranslation(text, apiKey, target, Ok(chat)) == Translation.GetTranslation(text, apiKey, target, Ok(chat))
  {
    Languages.LegacyNativeTableIsSubTable(target);
  }

  /** Spanish, known to the backend, falls back to English here. */
  lemma NewerLanguagesFallBack(text: string, apiKey: string, chat: Chat)
    requires apiKey != "" && text != ""
    ensures GetTranslation(text, apiKey, "Español", Ok(chat)) == chat(Translation.Instruction("English"), text)
    ensures Translation.GetTranslation(text, apiKey, "Español", Ok(chat)) == chat(Translation.Instruction("Spanish"), text)
  {
    SpanishIsNotInTheOldTable();
    assert Languages.NativeNames["Español"] == "Spanish";
  }

  lemma SpanishIsNotInTheOldTable()
    ensures "Español" !in Languages.LegacyNativeNames
  {
    var k := "Español";
    assert k != "Deutsch" by { assert k[0] != "Deutsch"[0]; }
    assert k != "English" by { assert k[1] != "English"[1]; }
    assert k != "Français" by { assert k[0] != "Français"[0]; }
    assert k != "Русский язык" by { assert k[0] != "Русский язык"[0]; }
    assert k != "中文" by { assert k[0] != "中文"[0]; }
  }
}
