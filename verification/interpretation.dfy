/** The first steps every Gemini prompt builder takes: the key guard, the
    text guard, then building the client. */
module GeminiGuards {
  import opened Common

  const MissingKey := "Error: Gemini API Key not found."
  const MissingText := "Error: text not found."

  /** Either the builder already returned a message, or it holds a client. */
  datatype Preflight = Done(message: string) | Ready(chat: Chat)

  /** The guards of the backend builders, whose `genai.Client(...)` sits in a
      `try` that turns a failure into the returned text "ERROR: <e>". */
  function Prepare(apiKey: string, text: string, client: Outcome<Chat>): (r: Preflight)
    ensures apiKey == "" ==> r == Done(MissingKey)
    ensures apiKey != "" && text == "" ==> r == Done(MissingText)
    ensures apiKey != "" && text != "" && client.Raised? ==> r == Done("ERROR: " + Str(client.exc))
    ensures r.Ready? <==> apiKey != "" && text != "" && client.Ok?
    ensures r.Ready? ==> r.chat == client.value
  {
    if apiKey == "" then Done(MissingKey)
    else if text == "" then Done(MissingText)
    else match client
      case Raised(e) => Done("ERROR: " + Str(e))
      case Ok(chat) => Ready(chat)
  }

  /** The guards of the older builders under src/process/, which let a client
      construction failure propagate. */
  function PrepareUnguarded(apiKey: string, text: string, client: Outcome<Chat>): (r: Outcome<Preflight>)
    ensures apiKey == "" ==> r == Ok(Done(MissingKey))
    ensures apiKey != "" && text == "" ==> r == Ok(Done(MissingText))
    ensures apiKey != "" && text != "" && client.Raised? ==> r == Raised(client.exc)
    ensures r.Ok? && r.value.Ready? <==> apiKey != "" && text != "" && client.Ok?
  {
    if apiKey == "" then Ok(Done(MissingKey))
    else if text == "" then Ok(Done(MissingText))
    else match client
      case Raised(e) => Raised(e)
      case Ok(chat) => Ok(Ready(chat))
  }
}

/** `get_interpretation` of backend/process/interpretation.py: the template
    is chosen by genre, then both language names are filled in. */
module ProcessInterpretation {
  import opened Common
  import Languages
  import Templates
  import opened GeminiGuards

  /** The templates of src/process/sys_prompt.py; their wording is not modelled. */
  datatype GenrePrompts = GenrePrompts(general: string, news: string, philosophy: string)

  const NarrativePrompt := ""
  const PoemPrompt := ""

  /** The `genres` dict. */
  function GenreTable(p: GenrePrompts): map<string, string> {
    map["general" := p.general, "news" := p.news, "narrative" := NarrativePrompt,
        "poem" := PoemPrompt, "philosophy" := p.philosophy]
  }

  /** The genres for which `sys_prompt` is bound. */
  const Implemented: set<string> := {"general", "news", "philosophy"}

  /** The genres of the table left out of the dispatch are the ones whose
      template is the empty string. */
  lemma UnimplementedGenresAreEmpty(p: GenrePrompts, g: string)
    requires g in GenreTable(p) && g !in Implemented
    ensures GenreTable(p)[g] == ""
  {
  }

  /** The system instruction: the template of the genre (matched after
      lower-casing) with both language names filled in; for any other genre
      `sys_prompt` is never bound and reading it raises. */
  function SystemPrompt(genre: string, learnLanguage: string, profLanguage: string, p: GenrePrompts): (r: Outcome<string>)
    ensures r.Ok? <==> Lower(genre) in Implemented
    ensures r.Raised? ==> r.exc == Unbound("sys_prompt")
    ensures r.Ok? ==> r.value == Templates.Fill(GenreTable(p)[Lower(genre)],
      Templates.LearnLanguage, Languages.CodeNameIgnoringCase(learnLanguage),
      Templates.ProfLanguage, Languages.CodeNameIgnoringCase(profLanguage))
  {
    var learn := Languages.CodeNameIgnoringCase(learnLanguage);
    var prof := Languages.CodeNameIgnoringCase(profLanguage);
    var g := Lower(genre);
    if g in Implemented then
      Ok(Templates.Fill(GenreTable(p)[g], Templates.LearnLanguage, learn, Templates.ProfLanguage, prof))
    else
      Raised(Unbound("sys_prompt"))
  }

  /** Everything after the client is built: bind the instruction, then call the model. */
  function Generate(chat: Chat, genre: string, text: string, learnLanguage: string, profLanguage: string, p: GenrePrompts): (r: Outcome<string>)
    ensures Lower(genre) !in Implemented ==> r == Raised(Unbound("sys_prompt"))
    ensures Lower(genre) in Implemented ==> r == chat(SystemPrompt(genre, learnLanguage, profLanguage, p).value, text)
  {
    match SystemPrompt(genre, learnLanguage, profLanguage, p)
    case Raised(e) => Raised(e)
    case Ok(sys) => chat(sys, text)
  }

  /** `get_interpretation(genre, api_key, text, learn_language, prof_language)`;
      `client` is what `genai.Client(api_key=...)` gives. */
  function GetInterpretation(genre: string, apiKey: string, text: string, learnLanguage: string,
                             profLanguage: string, p: GenrePrompts, client: Outcome<Chat>): (r: Outcome<string>)
    ensures apiKey == "" ==> r == Ok(MissingKey)
    ensures apiKey != "" && text == "" ==> r == Ok(MissingText)
    ensures apiKey != "" && text != "" && client.Raised? ==> r == Ok("ERROR: " + Str(client.exc))
    ensures apiKey != "" && text != "" && client.Ok? && Lower(genre) !in Implemented ==>
      r == Raised(Unbound("sys_prompt"))
    ensures apiKey != "" && text != "" && client.Ok? && Lower(genre) in Implemented ==>
      r == client.value(SystemPrompt(genre, learnLanguage, profLanguage, p).value, text)
  {
    match Prepare(apiKey, text, client)
    case Done(message) => Ok(message)
    case Ready(chat) => Generate(chat, genre, text, learnLanguage, profLanguage, p)
  }

  /** Genre names are matched without regard to case: two spellings that
      lower-case alike give the same result. */
  lemma {:induction false} GenreIgnoresCase(g1: string, g2: string, apiKey: string, text: string,
                                            learn: string, prof: string, p: GenrePrompts, client: Outcome<Chat>)
    requires Lower(g1) == Lower(g2)
    ensures GetInterpretation(g1, apiKey, text, learn, prof, p, client)
         == GetInterpretation(g2, apiKey, text, learn, prof, p, client)
  {
    assert SystemPrompt(g1, learn, prof, p) == SystemPrompt(g2, learn, prof, p);
    if Prepare(apiKey, text, client).Ready? {
      var chat := Prepare(apiKey, text, client).chat;
      assert Generate(chat, g1, text, learn, prof, p) == Generate(chat, g2, text, learn, prof, p);
    }
  }

  /** The capitalised genre names the detector returns select the same templates. */
  lemma CapitalisedGenres(apiKey: string, text: string, learn: string, prof: string, p: GenrePrompts, client: Outcome<Chat>)
    ensures GetInterpretation("News", apiKey, text, learn, prof, p, client)
         == GetInterpretation("news", apiKey, text, learn, prof, p, client)
    ensures GetInterpretation("Philosophy", apiKey, text, learn, prof, p, client)
         == GetInterpretation("philosophy", apiKey, text, learn, prof, p, client)
    ensures GetInterpretation("General", apiKey, text, learn, prof, p, client)
         == GetInterpretation("general", apiKey, text, learn, prof, p, client)
  {
    assert Lower("News") == "news" == Lower("news");
    assert Lower("Philosophy") == "philosophy" == Lower("philosophy");
    assert Lower("General") == "general" == Lower("general");
    GenreIgnoresCase("News", "news", apiKey, text, learn, prof, p, client);
    GenreIgnoresCase("Philosophy", "philosophy", apiKey, text, learn, prof, p, client);
    GenreIgnoresCase("General", "general", apiKey, text, learn, prof, p, client);
  }

  /** The six genres the detector may name: three reach the model, the
      other three (Narrative, Poem, Paper) raise before any call. */
  lemma DetectorGenres(apiKey: string, text: string, learn: string, prof: string, p: GenrePrompts, chat: Chat)
    requires apiKey != "" && text != ""
    ensures GetInterpretation("Narrative", apiKey, text, learn, prof, p, Ok(chat)) == Raised(Unbound("sys_prompt"))
    ensures GetInterpretation("Poem", apiKey, text, learn, prof, p, Ok(chat)) == Raised(Unbound("sys_prompt"))
    ensures GetInterpretation("Paper", apiKey, text, learn, prof, p, Ok(chat)) == Raised(Unbound("sys_prompt"))
    ensures GetInterpretation("News", apiKey, text, learn, prof, p, Ok(chat))
         == chat(Templates.Fill(p.news, Templates.LearnLanguage, Languages.CodeNameIgnoringCase(learn),
                                Templates.ProfLanguage, Languages.CodeNameIgnoringCase(prof)), text)
  {
    assert Lower("Narrative") == "narrative";
    assert Lower("Poem") == "poem";
    assert Lower("Paper") == "paper";
    assert Lower("News") == "news";
  }
}

/** `get_interpretation` of backend/workflow/interpretation.py: always the
    general template. */
module WorkflowInterpretation {
  import opened Common
  import Languages
  import Templates
  import opened GeminiGuards

  function GetInterpretation(apiKey: string, text: string, learnLanguage: string, userLanguage: string,
                             general: string, client: Outcome<Chat>): (r: Outcome<string>)
    ensures apiKey == "" ==> r == Ok(MissingKey)
    ensures apiKey != "" && text == "" ==> r == Ok(MissingText)
    ensures apiKey != "" && text != "" && client.Raised? ==> r == Ok("ERROR: " + Str(client.exc))
    ensures apiKey != "" && text != "" && client.Ok? ==>
      r == client.value(Templates.Fill(general,
             Templates.LearnLanguage, Languages.CodeNameIgnoringCase(learnLanguage),
             Templates.ProfLanguage, Languages.CodeNameIgnoringCase(userLanguage)), text)
  {
    match Prepare(apiKey, text, client)
    case Done(message) => Ok(message)
    case Ready(chat) =>
      var sys := Templates.Fill(general,
        Templates.LearnLanguage, Languages.CodeNameIgnoringCase(learnLanguage),
        Templates.ProfLanguage, Languages.CodeNameIgnoringCase(userLanguage));
      chat(sys, text)
  }
}

/** `get_interpretation` of src/process/interpretation.py: the older version
    with a three-language table and only the news template. */
module LegacyInterpretation {
  import opened Common
  import Languages
  import Templates
  import opened GeminiGuards

  const NarrativePrompt := ""
  const PoemPrompt := ""
  const PhiloPrompt := ""

  /** The `genres` dict; `news` is the module's NEWS_PROMPT, whose wording is not modelled. */
  function GenreTable(news: string): map<string, string> {
    map["news" := news, "narrative" := NarrativePrompt, "poem" := PoemPrompt, "philosophy" := PhiloPrompt]
  }

  function GetInterpretation(genre: string, apiKey: string, text: string, learnLanguage: string,
                             targetLanguage: string, news: string, client: Outcome<Chat>): (r: Outcome<string>)
    ensures apiKey == "" ==> r == Ok(MissingKey)
    ensures apiKey != "" && text == "" ==> r == Ok(MissingText)
    ensures apiKey != "" && text != "" && client.Raised? ==> r == Raised(client.exc)
    ensures apiKey != "" && text != "" && client.Ok? && Lower(genre) != "news" ==>
      r == Raised(Unbound("sys_prompt"))
    ensures apiKey != "" && text != "" && client.Ok? && Lower(genre) == "news" ==>
      r == client.value(Templates.Fill(news,
             Templates.LearnLanguage, Languages.LegacyCodeName(learnLanguage),
             Templates.TargetLanguage, Languages.LegacyCodeName(targetLanguage)), text)
  {
    match PrepareUnguarded(apiKey, text, client)
    case Raised(e) => Raised(e)
    case Ok(Done(message)) => Ok(message)
    case Ok(Ready(chat)) =>
      if Lower(genre) == "news" then
        var sys := Templates.Fill(GenreTable(news)["news"],
          Templates.LearnLanguage, Languages.LegacyCodeName(learnLanguage),
          Templates.TargetLanguage, Languages.LegacyCodeName(targetLanguage));
        chat(sys, text)
      else
        Raised(Unbound("sys_prompt"))
  }

  /** Only news is implemented: the other entries of the table are empty. */
  lemma OnlyNewsHasATemplate(news: string, g: string)
    requires g in GenreTable(news) && g != "news"
    ensures GenreTable(news)[g] == ""
  {
  }
}
