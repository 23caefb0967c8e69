/** The LangGraph analysis workflow (backend/workflow/agent.py): a typed state
    record flows through the nodes detect, correct and interpret; each node
    returns a partial update that the runtime merges into the state. */
module WorkflowAgent {
  import opened Common
  import Languages
  import Templates

  /** The structured reply of the detection model (the `TextDerectives` schema). */
  datatype TextDirectives = TextDirectives(language: string, genre: string, correctionNeeded: bool)

  /** `MultiAgentState` */
  datatype MultiAgentState = MultiAgentState(
    messages: seq<string>,
    text: string,
    textLanguage: string,
    userLanguage: string,
    genre: string,
    needsCorrection: bool,
    correctedText: Option<string>,
    interpretation: Option<string>)

  /** The partial update a node returns: a present field is a key of the returned dict. */
  datatype Update = Update(
    text: Option<string>,
    textLanguage: Option<string>,
    genre: Option<string>,
    needsCorrection: Option<bool>,
    correctedText: Option<string>,
    interpretation: Option<string>)

  /** The instruction texts of the workflow; their wording is not modelled. */
  datatype Prompts = Prompts(general: string, exam: string, correction: string)

  /** What the two Gemini chat models do, as seen by the graph: the lite model
      with structured output, the lite model, and the flash model. */
  datatype Models = Models(
    structured: (string, string) -> Outcome<TextDirectives>,
    lite: Chat,
    flash: Chat)

  datatype Collaborators = Collaborators(prompts: Prompts, models: Models)

  /** `TextAnalysisLangchain`: the configuration its chat models are built with. */
  datatype TextAnalysisLangchain = TextAnalysisLangchain(geminiKey: string, model: string)

  const DefaultModel := "gemini-2.5-flash"

  /** `TextAnalysisLangchain(gemini_key, model)`: raises without a key. */
  function NewTextAnalysis(geminiKey: Option<string>, model: string): (r: Outcome<TextAnalysisLangchain>)
    ensures r.Ok? <==> geminiKey.Some? && geminiKey.value != ""
    ensures r.Ok? ==> r.value.geminiKey == geminiKey.value && r.value.model == model
    ensures r.Raised? ==> r.exc == Exception(ValueError, "Gemini API key is required.")
  {
    if geminiKey.None? || geminiKey.value == "" then
      Raised(Exception(ValueError, "Gemini API key is required."))
    else
      Ok(TextAnalysisLangchain(geminiKey.value, model))
  }

  /** The runtime's merge: every key of the update overwrites the state's field. */
  function Merge(s: MultiAgentState, u: Update): (r: MultiAgentState)
    ensures r.messages == s.messages && r.userLanguage == s.userLanguage
    ensures r.text == (if u.text.Some? then u.text.value else s.text)
    ensures r.textLanguage == (if u.textLanguage.Some? then u.textLanguage.value else s.textLanguage)
    ensures r.genre == (if u.genre.Some? then u.genre.value else s.genre)
    ensures r.needsCorrection == (if u.needsCorrection.Some? then u.needsCorrection.value else s.needsCorrection)
    ensures r.correctedText == (if u.correctedText.Some? then u.correctedText else s.correctedText)
    ensures r.interpretation == (if u.interpretation.Some? then u.interpretation else s.interpretation)
  {
    s.(text := if u.text.Some? then u.text.value else s.text,
       textLanguage := if u.textLanguage.Some? then u.textLanguage.value else s.textLanguage,
       genre := if u.genre.Some? then u.genre.value else s.genre,
       needsCorrection := if u.needsCorrection.Some? then u.needsCorrection.value else s.needsCorrection,
       correctedText := if u.correctedText.Some? then u.correctedText else s.correctedText,
       interpretation := if u.interpretation.Some? then u.interpretation else s.interpretation)
  }

  /** `detection_node`: classify the text; the update holds only the three directive keys. */
  function DetectionNode(s: MultiAgentState, c: Collaborators): (r: Outcome<Update>)
    ensures r.Raised? <==> c.models.structured(c.prompts.exam, s.text).Raised?
    ensures r.Ok? ==>
      var d := c.models.structured(c.prompts.exam, s.text).value;
      && r.value.textLanguage == Some(d.language)
      && r.value.genre == Some(d.genre)
      && r.value.needsCorrection == Some(d.correctionNeeded)
      && r.value.text.None? && r.value.correctedText.None? && r.value.interpretation.None?
  {
    match c.models.structured(c.prompts.exam, s.text)
    case Raised(e) => Raised(e)
    case Ok(d) => Ok(Update(None, Some(d.language), Some(d.genre), Some(d.correctionNeeded), None, None))
  }

  /** `correction_node`: the corrected text becomes both `corrected_text` and `text`. */
  function CorrectionNode(s: MultiAgentState, c: Collaborators): (r: Outcome<Update>)
    ensures r.Raised? <==> c.models.lite(c.prompts.correction, s.text).Raised?
    ensures r.Ok? ==>
      && r.value.text == Some(c.models.lite(c.prompts.correction, s.text).value)
      && r.value.correctedText == r.value.text
      && r.value.textLanguage.None? && r.value.genre.None?
      && r.value.needsCorrection.None? && r.value.interpretation.None?
  {
    match c.models.lite(c.prompts.correction, s.text)
    case Raised(e) => Raised(e)
    case Ok(content) => Ok(Update(Some(content), None, None, None, Some(content), None))
  }

  /** The system instruction of `interpretation_node`: GENERAL_PROMPT with both
      language names filled in; the codes are looked up as they are. */
  function InterpretationPrompt(s: MultiAgentState, general: string): string
  {
    Templates.Fill(general,
      Templates.LearnLanguage, Languages.CodeName(s.textLanguage),
      Templates.ProfLanguage, Languages.CodeName(s.userLanguage))
  }

  /** The genre the detector chose does not change the instruction. */
  lemma InterpretationPromptIgnoresGenre(s: MultiAgentState, genre: string, general: string)
    ensures InterpretationPrompt(s.(genre := genre), general) == InterpretationPrompt(s, general)
  {
  }

  /** `interpretation_node`: the update holds only `interpretation`. */
  function InterpretationNode(s: MultiAgentState, c: Collaborators): (r: Outcome<Update>)
    ensures r.Raised? <==> c.models.flash(InterpretationPrompt(s, c.prompts.general), s.text).Raised?
    ensures r.Ok? ==>
      && r.value.interpretation == Some(c.models.flash(InterpretationPrompt(s, c.prompts.general), s.text).value)
      && r.value.text.None? && r.value.textLanguage.None? && r.value.genre.None?
      && r.value.needsCorrection.None? && r.value.correctedText.None?
  {
    match c.models.flash(InterpretationPrompt(s, c.prompts.general), s.text)
    case Raised(e) => Raised(e)
    case Ok(content) => Ok(Update(None, None, None, None, None, Some(content)))
  }

  // -----------------------------------------------------------------------
  // The graph

  datatype Node = Detect | Correct | Interpret | End

  /** `add_edge(START, "detect")` */
  const Entry := Detect

  /** The path map of `add_conditional_edges`. */
  const RouteTargets: map<string, Node> := map["correct" := Correct, "interpret" := Interpret]

  /** `route_after_detection` */
  function RouteAfterDetection(s: MultiAgentState): (route: string)
    ensures route in RouteTargets
    ensures route == "correct" <==> s.needsCorrection
    ensures route == "interpret" <==> !s.needsCorrection
  {
    if s.needsCorrection then "correct" else "interpret"
  }

  /** The edges of the compiled graph. */
  function Next(n: Node, s: MultiAgentState): (m: Node)
    requires n != End
    ensures Rank(m) < Rank(n)
  {
    match n
    case Detect => RouteTargets[RouteAfterDetection(s)]
    case Correct => Interpret
    case Interpret => End
  }

  /** Every edge leads to a node of lower rank, so the graph has no cycle. */
  function Rank(n: Node): nat {
    match n
    case Detect => 3
    case Correct => 2
    case Interpret => 1
    case End => 0
  }

  function RunNode(n: Node, s: MultiAgentState, c: Collaborators): Outcome<Update>
    requires n != End
  {
    match n
    case Detect => DetectionNode(s, c)
    case Correct => CorrectionNode(s, c)
    case Interpret => InterpretationNode(s, c)
  }

  /** The outcome of a run and the nodes it visited, in order. */
  datatype Trace = Trace(result: Outcome<MultiAgentState>, visited: seq<Node>)

  /** The semantics of the compiled graph from node `n`: run the node, merge
      its update, follow the edge; an exception in a node ends the run. */
  function RunFrom(n: Node, s: MultiAgentState, c: Collaborators): Trace
    decreases Rank(n)
  {
    if n == End then Trace(Ok(s), [])
    else
      match RunNode(n, s, c)
      case Raised(e) => Trace(Raised(e), [n])
      case Ok(u) =>
        var s' := Merge(s, u);
        var t := RunFrom(Next(n, s'), s', c);
        Trace(t.result, [n] + t.visited)
  }

  /** `graph.invoke(initial_state)` */
  function Analyze(init: MultiAgentState, c: Collaborators): Outcome<MultiAgentState>
  {
    RunFrom(Entry, init, c).result
  }

  /** The runtime's loop: from the entry node, run, merge and follow edges until END. */
  method Invoke(init: MultiAgentState, c: Collaborators) returns (r: Outcome<MultiAgentState>, visited: seq<Node>)
    ensures Trace(r, visited) == RunFrom(Entry, init, c)
  {
    ghost var goal := RunFrom(Entry, init, c);
    var state := init;
    var node := Entry;
    visited := [];
    while node != End
      invariant goal == Trace(RunFrom(node, state, c).result, visited + RunFrom(node, state, c).visited)
      decreases Rank(node)
    {
      var u := RunNode(node, state, c);
      InvokeStep(goal, c, node, state, visited);
      visited := visited + [node];
      if u.Raised? {
        return Raised(u.exc), visited;
      }
      state := Merge(state, u.value);
      node := Next(node, state);
    }
    r := Ok(state);
  }

  /** One turn of `Invoke`'s loop keeps its invariant: a node's exception
      ends the run, otherwise the run continues from the merged state. */
  lemma InvokeStep(goal: Trace, c: Collaborators, n: Node, s: MultiAgentState, visited: seq<Node>)
    requires n != End
    requires goal == Trace(RunFrom(n, s, c).result, visited + RunFrom(n, s, c).visited)
    ensures RunNode(n, s, c).Raised? ==> goal == Trace(Raised(RunNode(n, s, c).exc), visited + [n])
    ensures RunNode(n, s, c).Ok? ==>
      var s' := Merge(s, RunNode(n, s, c).value);
      var t := RunFrom(Next(n, s'), s', c);
      goal == Trace(t.result, (visited + [n]) + t.visited)
  {
    if RunNode(n, s, c).Ok? {
      var s' := Merge(s, RunNode(n, s, c).value);
      var t := RunFrom(Next(n, s'), s', c);
      assert visited + ([n] + t.visited) == (visited + [n]) + t.visited;
    }
  }

  /** Detect runs first and once, correct at most once, and a successful run
      ends with exactly one interpret. */
  lemma {:induction false} GraphOrder(init: MultiAgentState, c: Collaborators)
    ensures var t := RunFrom(Entry, init, c);
      t.visited in {[Detect], [Detect, Correct], [Detect, Interpret], [Detect, Correct, Interpret]}
    ensures var t := RunFrom(Entry, init, c);
      t.result.Ok? ==> t.visited in {[Detect, Interpret], [Detect, Correct, Interpret]}
    ensures var t := RunFrom(Entry, init, c);
      var d := c.models.structured(c.prompts.exam, init.text);
      Correct in t.visited <==> d.Ok? && d.value.correctionNeeded
  {
    var d := DetectionNode(init, c);
    if d.Ok? {
      var s1 := Merge(init, d.value);
      if s1.needsCorrection {
        var k := CorrectionNode(s1, c);
        if k.Ok? {
          var s2 := Merge(s1, k.value);
          assert RunFrom(Interpret, s2, c).visited == [Interpret];
          assert RunFrom(Correct, s1, c).visited == [Correct] + RunFrom(Interpret, s2, c).visited;
          assert RunFrom(Entry, init, c).visited == [Detect, Correct, Interpret];
        } else {
          assert RunFrom(Entry, init, c).visited == [Detect, Correct];
        }
      } else {
        assert RunFrom(Interpret, s1, c).visited == [Interpret];
        assert RunFrom(Entry, init, c).visited == [Detect, Interpret];
      }
    }
  }

  /** The state a successful run ends in: the detector's directives, the
      corrected text when correction ran (then `text == corrected_text`),
      otherwise the input text and the initial `corrected_text`, and the
      flash model's reply on the final text as `interpretation`. */
  lemma {:induction false} GraphFinalState(init: MultiAgentState, c: Collaborators)
    requires Analyze(init, c).Ok?
    ensures var d := c.models.structured(c.prompts.exam, init.text);
      var f := Analyze(init, c).value;
      && d.Ok?
      && f.textLanguage == d.value.language && f.genre == d.value.genre
      && f.needsCorrection == d.value.correctionNeeded
      && f.userLanguage == init.userLanguage && f.messages == init.messages
      && (d.value.correctionNeeded ==>
            f.correctedText == Some(f.text) && f.text == c.models.lite(c.prompts.correction, init.text).value)
      && (!d.value.correctionNeeded ==> f.text == init.text && f.correctedText == init.correctedText)
      && f.interpretation == Some(c.models.flash(InterpretationPrompt(f, c.prompts.general), f.text).value)
  {
    var d := DetectionNode(init, c);
    var s1 := Merge(init, d.value);
    if s1.needsCorrection {
      var k := CorrectionNode(s1, c);
      var s2 := Merge(s1, k.value);
      var i := InterpretationNode(s2, c);
      assert Analyze(init, c).value == Merge(s2, i.value);
    } else {
      var i := InterpretationNode(s1, c);
      assert Analyze(init, c).value == Merge(s1, i.value);
    }
  }
}
