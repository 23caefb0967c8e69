/** The request and response records the use cases exchange
    (backend/schema/analyze_schema.py, and the records use_cases.py imports
    from it, defined here from how they are used). */
module Schema {
  import opened Common
  import WorkflowAgent
  import HistoryStore

  /** The user language defaults to "EN" in the source. */
  datatype AnalysisRequest = AnalysisRequest(text: string, userLanguage: string)
  datatype AnalysisResponse = AnalysisResponse(result: string, success: bool, error: Option<string>)

  /** `HistoryItem(**row.to_dict())`: the row's own fields. */
  type HistoryItem = HistoryStore.HistoryRow
  datatype HistoryResponse = HistoryResponse(history: seq<HistoryItem>, success: bool, error: Option<string>)

  datatype SettingsRequest = SettingsRequest(geminiApiKey: Option<string>, model: string)
  datatype SettingsResponse = SettingsResponse(geminiApiKey: string, model: string, hasApiKey: bool, success: bool)

  /** The state both analysis entry points start the workflow from. */
  function InitialState(request: AnalysisRequest): (s: WorkflowAgent.MultiAgentState)
    ensures s.text == request.text && s.userLanguage == Upper(request.userLanguage)
    ensures s.messages == [] && s.textLanguage == "" && s.genre == "" && !s.needsCorrection
    ensures s.correctedText.None? && s.interpretation.None?
  {
    WorkflowAgent.MultiAgentState([], request.text, "", Upper(request.userLanguage), "", false, None, None)
  }

  /** `not interpretation`: missing or empty. */
  predicate NoResult(s: WorkflowAgent.MultiAgentState) {
    s.interpretation.None? || s.interpretation.value == ""
  }
}

/** backend/service.py: the settings dict and the workflow agent built from it. */
module Service {
  import opened Common
  import WorkflowAgent

  /** The `settings` dict. */
  datatype Settings = Settings(geminiApiKey: string, model: string)

  /** The agent the settings call for: one exactly when a key is set. */
  function AgentFor(s: Settings): (r: Option<WorkflowAgent.TextAnalysisLangchain>)
    ensures r.Some? <==> s.geminiApiKey != ""
    ensures r.Some? ==> r.value.geminiKey == s.geminiApiKey && r.value.model == s.model
  {
    match WorkflowAgent.NewTextAnalysis(Some(s.geminiApiKey), s.model)
    case Ok(agent) => Some(agent)
    case Raised(_) => None
  }

  /** The key as shown to the user: its first `visible` characters and
      "...", or "" when no key is set. */
  function MaskedKey(key: string, visible: nat): (r: string)
    ensures r == "" <==> key == ""
    ensures key != "" ==> r == key[..Min(visible, |key|)] + "..."
  {
    if key != "" then key[..Min(visible, |key|)] + "..." else ""
  }

  /** The mask shows nothing past the visible characters: keys that agree on
      them are shown alike. */
  lemma MaskHidesTheRest(k1: string, k2: string, visible: nat)
    requires |k1| >= visible && |k2| >= visible && visible > 0
    requires k1[..visible] == k2[..visible]
    ensures MaskedKey(k1, visible) == MaskedKey(k2, visible)
  {
  }

  /** At most `visible` characters of the key are shown. */
  lemma MaskLength(key: string, visible: nat)
    ensures |MaskedKey(key, visible)| <= visible + 3
    ensures key != "" ==> MaskedKey(key, visible)[..|MaskedKey(key, visible)| - 3] <= key
  {
  }

  /** `new_key and new_key.strip()` */
  function UsableKey(newKey: Option<string>): (r: bool)
    ensures r <==> newKey.Some? && !IsBlank(newKey.value)
  {
    if newKey.None? then false
    else
      StripEmptyIffBlank(newKey.value);
      newKey.value != "" && Strip(newKey.value) != ""
  }

  class AnalysisService {
    var settings: Settings
    var agent: Option<WorkflowAgent.TextAnalysisLangchain>

    /** The agent is the one the current settings call for. */
    ghost predicate Valid()
      reads this
    {
      agent == AgentFor(settings)
    }

    /** `AnalysisService()`; `envKey` is the GEMINI_API_KEY variable, if set. */
    constructor (envKey: Option<string>)
      ensures settings == Settings(if envKey.Some? then envKey.value else "", WorkflowAgent.DefaultModel)
      ensures Valid()
    {
      settings := Settings(if envKey.Some? then envKey.value else "", WorkflowAgent.DefaultModel);
      agent := None;
      new;
      InitAgent();
    }

    /** `_init_agent()` */
    method InitAgent()
      modifies this
      ensures settings == old(settings)
      ensures Valid()
    {
      if settings.geminiApiKey != "" {
        var built := WorkflowAgent.NewTextAnalysis(Some(settings.geminiApiKey), settings.model);
        agent := Some(built.value);
      } else {
        agent := None;
      }
    }

    /** `get_agent()`: the current agent, present exactly when a key is set. */
    function GetAgent(): (r: Option<WorkflowAgent.TextAnalysisLangchain>)
      reads this
      requires Valid()
      ensures r.Some? <==> settings.geminiApiKey != ""
      ensures r.Some? ==> r.value.geminiKey == settings.geminiApiKey && r.value.model == settings.model
    {
      agent
    }

    /** `update_settings(new_key, new_model)`: a key that is missing or blank
        keeps the old one, a given key is stored as it is; an empty model keeps
        the old one; the agent is rebuilt either way. */
    method UpdateSettings(newKey: Option<string>, newModel: string) returns (r: Settings)
      modifies this
      ensures settings.geminiApiKey == if UsableKey(newKey) then newKey.value else old(settings.geminiApiKey)
      ensures settings.model == if newModel != "" then newModel else old(settings.model)
      ensures Valid()
      ensures r == settings
    {
      if UsableKey(newKey) {
        settings := settings.(geminiApiKey := newKey.value);
      }
      if newModel != "" {
        settings := settings.(model := newModel);
      }
      InitAgent();
      r := settings;
    }
  }

  /** A blank key never replaces the stored one, so a stored key survives it. */
  lemma BlankKeyKeepsTheOldOne(newKey: string)
    requires IsBlank(newKey)
    ensures !UsableKey(Some(newKey))
  {
  }

  /** Any key with a character that is not blank is usable, and
      `update_settings` then stores it as given, surrounding spaces included. */
  lemma NonBlankKeyIsUsable(key: string, i: nat)
    requires i < |key| && !IsSpace(key[i])
    ensures UsableKey(Some(key))
  {
    assert !IsBlank(key) by {
      assert key[i] in key;
    }
  }

  /** A key with surrounding spaces is usable and kept with its spaces. */
  lemma PaddedKeyIsStoredAsGiven()
    ensures UsableKey(Some(" k "))
  {
    assert !IsSpace('k');
    assert " k "[1] == 'k';
  }
}

/** backend/services/analysis_service.py: the other settings service, which
    raises HTTP errors, masks eight characters and saves no history. */
module ServicesAnalysis {
  import opened Common
  import WorkflowAgent
  import opened Service
  import HistoryStore
  import opened Schema

  /** The dict `get_settings` returns. */
  datatype SettingsView = SettingsView(geminiApiKey: string, model: string, hasApiKey: bool)

  const NoAgent := "Please configure Gemini API key in settings"
  const NoInterpretation := "Analysis failed - no interpretation generated"
  const NotFound := "History item not found"

  function HttpError(status: int, detail: string): Exception {
    Exception(HttpException(status), detail)
  }

  class AnalysisService {
    var settings: Settings
    var agent: Option<WorkflowAgent.TextAnalysisLangchain>

    ghost predicate Valid()
      reads this
    {
      agent == AgentFor(settings)
    }

    constructor (envKey: Option<string>)
      ensures settings == Settings(if envKey.Some? then envKey.value else "", WorkflowAgent.DefaultModel)
      ensures Valid()
    {
      settings := Settings(if envKey.Some? then envKey.value else "", WorkflowAgent.DefaultModel);
      new;
      agent := InitAgent();
    }

    /** `_init_agent()`: returns the agent rather than storing it. */
    function InitAgent(): (r: Option<WorkflowAgent.TextAnalysisLangchain>)
      reads this
      ensures r.Some? <==> settings.geminiApiKey != ""
      ensures r == AgentFor(settings)
    {
      if settings.geminiApiKey != "" then Some(WorkflowAgent.NewTextAnalysis(Some(settings.geminiApiKey), settings.model).value)
      else None
    }

    /** `analyze_text(db, request)` as written: `interpretation` is the text
        the workflow produced, and reading its `summary` attribute raises, so
        no call succeeds and nothing is saved. */
    method AnalyzeTextAsWritten(request: AnalysisRequest, c: WorkflowAgent.Collaborators) returns (r: Outcome<string>)
      requires Valid()
      ensures r.Raised?
      ensures agent.None? ==> r == Raised(HttpError(400, NoAgent))
      ensures agent.Some? ==>
        var final := WorkflowAgent.Analyze(InitialState(request), c);
        && (final.Raised? ==> r == Raised(final.exc))
        && (final.Ok? && NoResult(final.value) ==> r == Raised(HttpError(500, NoInterpretation)))
        && (final.Ok? && !NoResult(final.value) ==> r == Raised(NoAttribute("str", "summary")))
    {
      if agent.None? {
        return Raised(HttpError(400, NoAgent));
      }
      var final, _ := WorkflowAgent.Invoke(InitialState(request), c);
      if final.Raised? {
        return Raised(final.exc);
      }
      if NoResult(final.value) {
        return Raised(HttpError(500, NoInterpretation));
      }
      r := Raised(NoAttribute("str", "summary"));
    }

    /** `analyze_text` as evidently intended: the interpretation text is the
        result, saved once with the request text and returned. */
    method AnalyzeText(db: HistoryStore.HistoryDb, request: AnalysisRequest, c: WorkflowAgent.Collaborators,
                       commitFailure: Option<Exception>) returns (r: Outcome<string>)
      requires Valid() && db.Valid()
      modifies db
      ensures db.Valid()
      ensures agent.None? ==> r == Raised(HttpError(400, NoAgent)) && db.rows == old(db.rows)
      ensures agent.Some? ==>
        var final := WorkflowAgent.Analyze(InitialState(request), c);
        && (final.Raised? ==> r == Raised(final.exc) && db.rows == old(db.rows))
        && (final.Ok? && NoResult(final.value) ==> r == Raised(HttpError(500, NoInterpretation)) && db.rows == old(db.rows))
        && (final.Ok? && !NoResult(final.value) && commitFailure.Some? ==>
              r == Raised(commitFailure.value) && db.rows == old(db.rows))
        && (final.Ok? && !NoResult(final.value) && commitFailure.None? ==>
              && r == Ok(final.value.interpretation.value)
              && db.rows == old(db.rows) + [HistoryStore.HistoryRow(old(db.nextId), request.text, r.value, None, old(db.clock))])
      ensures r.Ok? <==> |db.rows| == |old(db.rows)| + 1
    {
      if agent.None? {
        return Raised(HttpError(400, NoAgent));
      }
      var final, _ := WorkflowAgent.Invoke(InitialState(request), c);
      if final.Raised? {
        return Raised(final.exc);
      }
      if NoResult(final.value) {
        return Raised(HttpError(500, NoInterpretation));
      }
      var interpretation := final.value.interpretation.value;
      var saved := db.Add(request.text, interpretation, None, commitFailure);
      if saved.Raised? {
        return Raised(saved.exc);
      }
      r := Ok(interpretation);
    }

    /** `get_history(db)`: every row once, newest first. */
    function GetHistory(db: HistoryStore.HistoryDb): (r: seq<HistoryStore.HistoryRow>)
      reads db
      requires db.Valid()
      ensures HistoryStore.NewestFirstOrder(r)
      ensures multiset(r) == multiset(db.rows)
    {
      db.NewestFirst()
    }

    /** `delete_history(db, history_id)`: 404 for an unknown id, otherwise
        the row is deleted and the deletion committed. */
    method DeleteHistory(db: HistoryStore.HistoryDb, id: int, commitFailure: Option<Exception>) returns (r: Outcome<()>)
      requires db.Valid()
      modifies db
      ensures db.Valid()
      ensures old(db.Find(id)).None? ==> r == Raised(HttpError(404, NotFound)) && db.rows == old(db.rows)
      ensures old(db.Find(id)).Some? && commitFailure.Some? ==> r == Raised(commitFailure.value) && db.rows == old(db.rows)
      ensures old(db.Find(id)).Some? && commitFailure.None? ==>
        r == Ok(()) && db.rows == HistoryStore.Without(old(db.rows), id)
    {
      if db.Find(id).None? {
        return Raised(HttpError(404, NotFound));
      }
      r := db.Remove(id, commitFailure);
    }

    /** `get_settings()`: eight characters of the key are shown. */
    function GetSettings(): (r: SettingsView)
      reads this
      ensures r.hasApiKey <==> settings.geminiApiKey != ""
      ensures r.geminiApiKey == MaskedKey(settings.geminiApiKey, 8)
      ensures r.model == settings.model
    {
      SettingsView(MaskedKey(settings.geminiApiKey, 8), settings.model, settings.geminiApiKey != "")
    }

    /** `update_settings(new_settings)`: any non-empty key replaces the stored
        one, blank or not; the model is always replaced. */
    method UpdateSettings(newSettings: SettingsRequest) returns (r: SettingsView)
      modifies this
      ensures settings.geminiApiKey ==
        if newSettings.geminiApiKey.Some? && newSettings.geminiApiKey.value != "" then newSettings.geminiApiKey.value
        else old(settings.geminiApiKey)
      ensures settings.model == newSettings.model
      ensures Valid()
      ensures r == GetSettings()
    {
      if newSettings.geminiApiKey.Some? && newSettings.geminiApiKey.value != "" {
        settings := settings.(geminiApiKey := newSettings.geminiApiKey.value);
      }
      settings := settings.(model := newSettings.model);
      agent := InitAgent();
      r := GetSettings();
    }
  }
}
