/** backend/process/agent.py: `AutomatedAnalysisAgent`, the hand-written
    pipeline with explicit fallbacks.  The directive model's reply is decoded
    by `json.loads` into a JSON value whose Python type decides what the
    `in` tests and `.get` calls do. */
module ProcessAgent {
  import opened Common
  import Ocr
  import ProcessInterpretation
  import opened GeminiGuards

  /** A value `json.loads` can return. */
  datatype Json =
    | JNull
    | JBool(b: bool)
    | JNum(n: int)
    | JStr(s: string)
    | JArr(items: seq<Json>)
    | JObj(fields: map<string, Json>)

  /** The Python type name of a decoded value, as error messages spell it. */
  function TypeName(j: Json): string {
    match j
    case JNull => "NoneType"
    case JBool(_) => "bool"
    case JNum(_) => "int"
    case JStr(_) => "str"
    case JArr(_) => "list"
    case JObj(_) => "dict"
  }

  /** Python truthiness. */
  predicate Truthy(j: Json) {
    match j
    case JNull => false
    case JBool(b) => b
    case JNum(n) => n != 0
    case JStr(s) => s != ""
    case JArr(items) => |items| > 0
    case JObj(fields) => |fields| > 0
  }

  /** `key in value`: a dict tests its keys, a list its items, a string its
      substrings; any other type raises TypeError. */
  function Contains(value: Json, key: string): (r: Outcome<bool>)
    ensures value.JObj? ==> r == Ok(key in value.fields)
    ensures value.JArr? ==> r == Ok(JStr(key) in value.items)
    ensures value.JStr? ==> r == Ok(Occurs(value.s, key))
    ensures r.Raised? <==> value.JNull? || value.JBool? || value.JNum?
  {
    match value
    case JObj(fields) => Ok(key in fields)
    case JArr(items) => Ok(JStr(key) in items)
    case JStr(s) => Ok(Occurs(s, key))
    case _ => Raised(Exception(TypeError, "argument of type '" + TypeName(value) + "' is not iterable"))
  }

  /** The three `in` tests all give True. */
  predicate HasKeys(d: Json) {
    Contains(d, "language") == Ok(true) && Contains(d, "genre") == Ok(true)
    && Contains(d, "correction_needed") == Ok(true)
  }
  const InvalidStructure := "Invalid JSON structure from analysis model."

  /** The "basic validation": the three keys must be `in` the decoded value. */
  function Validate(d: Json): (r: Outcome<Json>)
    ensures r.Ok? <==> HasKeys(d)
    ensures r.Ok? ==> r.value == d
  {
    match Contains(d, "language")
    case Raised(e) => Raised(e)
    case Ok(false) => Raised(Exception(ValueError, InvalidStructure))
    case Ok(true) =>
      match Contains(d, "genre")
      case Raised(e) => Raised(e)
      case Ok(false) => Raised(Exception(ValueError, InvalidStructure))
      case Ok(true) =>
        match Contains(d, "correction_needed")
        case Raised(e) => Raised(e)
        case Ok(false) => Raised(Exception(ValueError, InvalidStructure))
        case Ok(true) => Ok(d)
  }

  /** The safe default directive. */
  const Fallback := JObj(map["language" := JStr("EN"), "genre" := JStr("General"), "correction_needed" := JBool(true)])

  /** `_get_analysis_directives(text)`: `analyze` is the directive model's
      reply to the text, `loads` is `json.loads`.  Any exception gives the
      fallback. */
  function AnalysisDirectives(analyze: string -> Outcome<string>, loads: string -> Outcome<Json>, text: string): (r: Json)
    ensures analyze(text).Raised? ==> r == Fallback
    ensures analyze(text).Ok? && loads(analyze(text).value).Raised? ==> r == Fallback
    ensures analyze(text).Ok? && loads(analyze(text).value).Ok? ==>
      var d := loads(analyze(text).value).value;
      r == if Validate(d).Ok? then d else Fallback
  {
    match analyze(text)
    case Raised(_) => Fallback
    case Ok(reply) =>
      match loads(reply)
      case Raised(_) => Fallback
      case Ok(d) => if Validate(d).Ok? then d else Fallback
  }

  /** Whatever happens, the directives hold the three keys. */
  lemma DirectivesHoldTheKeys(analyze: string -> Outcome<string>, loads: string -> Outcome<Json>, text: string)
    ensures HasKeys(AnalysisDirectives(analyze, loads, text))
  {
    assert Validate(Fallback).Ok?;
  }

  /** Only the presence of the keys is checked, not their values: a dict
      with the keys and any values comes through unchanged. */
  lemma OnlyPresenceIsChecked(analyze: string -> Outcome<string>, loads: string -> Outcome<Json>, text: string,
                              fields: map<string, Json>)
    requires analyze(text).Ok? && loads(analyze(text).value) == Ok(JObj(fields))
    requires "language" in fields && "genre" in fields && "correction_needed" in fields
    ensures AnalysisDirectives(analyze, loads, text) == JObj(fields)
  {
  }

  /** A list or a string that happens to contain the three keys also passes,
      though it is not a dict. */
  lemma ListOfKeysPasses(analyze: string -> Outcome<string>, loads: string -> Outcome<Json>, text: string)
    requires analyze(text).Ok?
    requires loads(analyze(text).value) == Ok(JArr([JStr("language"), JStr("genre"), JStr("correction_needed")]))
    ensures AnalysisDirectives(analyze, loads, text) == JArr([JStr("language"), JStr("genre"), JStr("correction_needed")])
  {
    var d := JArr([JStr("language"), JStr("genre"), JStr("correction_needed")]);
    assert JStr("language") in d.items && JStr("genre") in d.items && JStr("correction_needed") in d.items;
  }

  /** A decoded scalar fails the `in` test with TypeError and gives the fallback. */
  lemma ScalarGivesFallback(analyze: string -> Outcome<string>, loads: string -> Outcome<Json>, text: string)
    requires analyze(text).Ok?
    requires loads(analyze(text).value).Ok?
    requires var d := loads(analyze(text).value).value; d.JNull? || d.JBool? || d.JNum?
    ensures AnalysisDirectives(analyze, loads, text) == Fallback
  {
  }

  /** `directives.get(key, default)` on a dict. */
  function Field(d: Json, key: string, default: Json): (r: Json)
    requires d.JObj?
    ensures key in d.fields ==> r == d.fields[key]
    ensures key !in d.fields ==> r == default
  {
    if key in d.fields then d.fields[key] else default
  }

  /** The text that reaches interpretation: the proofread text when
      correction is asked for and succeeds, the original text otherwise.
      A Mistral client that cannot be built is reported by the proofreader
      as "ERROR: <e>", and that string is what goes on. */
  function ProcessedText(text: string, d: Json, mistralKey: string, proofreader: Outcome<Ocr.Proofreader>): (r: string)
    requires d.JObj?
    ensures !Truthy(Field(d, "correction_needed", JBool(false))) ==> r == text
    ensures Truthy(Field(d, "correction_needed", JBool(false))) ==>
      var c := Ocr.CorrectTextWithAi(text, mistralKey, proofreader);
      (c.Raised? ==> r == text) && (c.Ok? ==> r == c.value)
  {
    if Truthy(Field(d, "correction_needed", JBool(false))) then
      match Ocr.CorrectTextWithAi(text, mistralKey, proofreader)
      case Ok(corrected) => corrected
      case Raised(_) => text
    else text
  }

  /** `get_interpretation` called with the directive values, which need not be
      strings: its guards answer first, whatever the directives hold; after
      them it calls `learn_language.upper()` and then `genre.lower()`, which
      raise on any other type. */
  function Interpret(genre: Json, learnLanguage: Json, apiKey: string, text: string, profLanguage: string,
                     prompts: ProcessInterpretation.GenrePrompts, client: Outcome<Chat>): (r: Outcome<string>)
    ensures Prepare(apiKey, text, client).Done? ==> r == Ok(Prepare(apiKey, text, client).message)
    ensures genre.JStr? && learnLanguage.JStr? ==>
      r == ProcessInterpretation.GetInterpretation(genre.s, apiKey, text, learnLanguage.s, profLanguage, prompts, client)
    ensures Prepare(apiKey, text, client).Ready? && !learnLanguage.JStr? ==>
      r == Raised(NoAttribute(TypeName(learnLanguage), "upper"))
    ensures Prepare(apiKey, text, client).Ready? && learnLanguage.JStr? && !genre.JStr? ==>
      r == Raised(NoAttribute(TypeName(genre), "lower"))
  {
    match Prepare(apiKey, text, client)
    case Done(message) => Ok(message)
    case Ready(chat) =>
      if !learnLanguage.JStr? then Raised(NoAttribute(TypeName(learnLanguage), "upper"))
      else if !genre.JStr? then Raised(NoAttribute(TypeName(genre), "lower"))
      else ProcessInterpretation.Generate(chat, genre.s, text, learnLanguage.s, profLanguage, prompts)
  }

  const EmptyInput := "Error: Input text is empty."

  /** `not text or not text.strip()`: the text is empty or whitespace only. */
  function NoInput(text: string): (r: bool)
    ensures r <==> IsBlank(text)
  {
    StripEmptyIffBlank(text);
    text == "" || Strip(text) == ""
  }
  const InterpretationFailed := "An error occurred during the final interpretation step: "

  /** The final step's `try`: an exception becomes a message. */
  function Reported(o: Outcome<string>): (r: string)
    ensures o.Ok? ==> r == o.value
    ensures o.Raised? ==> r == InterpretationFailed + Str(o.exc)
  {
    match o
    case Ok(s) => s
    case Raised(e) => InterpretationFailed + Str(e)
  }

  /** What `run` talks to besides the agent's own client: `json.loads`, the
      Mistral proofreader, the interpretation templates and the Gemini client
      `get_interpretation` builds. */
  datatype Environment = Environment(
    loads: string -> Outcome<Json>,
    proofreader: Outcome<Ocr.Proofreader>,
    prompts: ProcessInterpretation.GenrePrompts,
    interpreter: Outcome<Chat>)

  const MissingKeys := "Both Mistral and Gemini API keys are required."

  /** An agent: both keys, and the directive model behind the Gemini client
      built at construction. */
  datatype AutomatedAnalysisAgent = AutomatedAnalysisAgent(
    mistralKey: string,
    geminiKey: string,
    analyze: string -> Outcome<string>)
  {
    predicate Valid() {
      mistralKey != "" && geminiKey != ""
    }

    /** `run(text, prof_language)`: the steps reassign the working text. */
    method Run(text: string, profLanguage: string, env: Environment) returns (r: Outcome<string>)
      ensures IsBlank(text) ==> r == Ok(EmptyInput)
      ensures !IsBlank(text) ==>
        var d := AnalysisDirectives(analyze, env.loads, text);
        && (!d.JObj? ==> r == Raised(NoAttribute(TypeName(d), "get")))
        && (d.JObj? ==> r == Ok(Reported(Interpret(
              Field(d, "genre", JStr("General")), Field(d, "language", JStr("EN")),
              geminiKey, ProcessedText(text, d, mistralKey, env.proofreader), profLanguage,
              env.prompts, env.interpreter))))
      ensures r.Raised? ==> r.exc.kind == AttributeError && !IsBlank(text)
    {
      if NoInput(text) {
        return Ok(EmptyInput);
      }
      var directives := AnalysisDirectives(analyze, env.loads, text);
      if !directives.JObj? {
        return Raised(NoAttribute(TypeName(directives), "get"));
      }
      var processedText := text;
      if Truthy(Field(directives, "correction_needed", JBool(false))) {
        var corrected := Ocr.CorrectTextWithAi(text, mistralKey, env.proofreader);
        if corrected.Ok? {
          processedText := corrected.value;
        } else {
          processedText := text;
        }
      }
      assert processedText == ProcessedText(text, directives, mistralKey, env.proofreader);
      var interpretation := Interpret(
        Field(directives, "genre", JStr("General")), Field(directives, "language", JStr("EN")),
        geminiKey, processedText, profLanguage, env.prompts, env.interpreter);
      r := Ok(Reported(interpretation));
    }
  }

  /** `AutomatedAnalysisAgent(mistral_key, gemini_key)`; `client` is what
      `genai.Client(api_key=gemini_key)` gives. */
  function NewAgent(mistralKey: string, geminiKey: string, client: Outcome<string -> Outcome<string>>): (r: Outcome<AutomatedAnalysisAgent>)
    ensures mistralKey == "" || geminiKey == "" ==> r == Raised(Exception(ValueError, MissingKeys))
    ensures mistralKey != "" && geminiKey != "" && client.Raised? ==> r == Raised(client.exc)
    ensures r.Ok? <==> mistralKey != "" && geminiKey != "" && client.Ok?
    ensures r.Ok? ==> r.value.Valid() && r.value.mistralKey == mistralKey && r.value.geminiKey == geminiKey
  {
    if mistralKey == "" || geminiKey == "" then Raised(Exception(ValueError, MissingKeys))
    else match client
      case Raised(e) => Raised(e)
      case Ok(analyze) => Ok(AutomatedAnalysisAgent(mistralKey, geminiKey, analyze))
  }

  /** When the directive model fails, the text is proofread and interpreted
      as General text in English. */
  lemma FailedDetection(agent: AutomatedAnalysisAgent, text: string, env: Environment)
    requires agent.analyze(text).Raised?
    ensures var d := AnalysisDirectives(agent.analyze, env.loads, text);
      && d.JObj?
      && Field(d, "genre", JStr("General")) == JStr("General")
      && Field(d, "language", JStr("EN")) == JStr("EN")
      && Truthy(Field(d, "correction_needed", JBool(false)))
  {
  }

  /** With string directives the final step is the interpretation builder
      itself, with any exception it raises turned into a message. */
  lemma StringDirectivesReachTheBuilder(agent: AutomatedAnalysisAgent, text: string, d: Json, profLanguage: string, env: Environment)
    requires d.JObj? && "genre" in d.fields && "language" in d.fields
    requires d.fields["genre"].JStr? && d.fields["language"].JStr?
    ensures Reported(Interpret(Field(d, "genre", JStr("General")), Field(d, "language", JStr("EN")),
                               agent.geminiKey, ProcessedText(text, d, agent.mistralKey, env.proofreader), profLanguage,
                               env.prompts, env.interpreter))
         == Reported(ProcessInterpretation.GetInterpretation(d.fields["genre"].s, agent.geminiKey,
                               ProcessedText(text, d, agent.mistralKey, env.proofreader),
                               d.fields["language"].s, profLanguage, env.prompts, env.interpreter))
  {
  }
}
