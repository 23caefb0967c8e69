/** backend/use_cases.py: the operations the command line and the HTTP
    layer share. Failures come back as responses rather than exceptions,
    except where the source lets them escape. */
module UseCases {
  import opened Common
  import opened Schema
  import WorkflowAgent
  import Service
  import HistoryStore

  const NoAgent := "Please configure Gemini API key in settings"
  const NoInterpretation := "Analysis failed - no interpretation generated"

  /** The attributes of the `History` model (backend/database.py), which its
      default constructor accepts as keywords. */
  const HistoryColumns: set<string> :=
    {"id", "prompt", "result", "timestamp", "key_vocabulary", "grammar_points", "identified_errors"}

  function InvalidKeyword(kw: string): Exception {
    Exception(TypeError, "'" + kw + "' is an invalid keyword argument for History")
  }

  /** `History` with the `target_language` column that `run_analysis` writes
      and the command line's history listing reads. */
  const ColumnsWithLanguage: set<string> := HistoryColumns + {"target_language"}

  /** The declarative constructor's check against a model with the given
      attributes: the keywords are tried in order and the first that is not
      an attribute raises. */
  function CheckKeywords(kws: seq<string>, columns: set<string>): (r: Outcome<()>)
    ensures r.Ok? <==> forall i :: 0 <= i < |kws| ==> kws[i] in columns
    ensures r.Raised? ==>
      exists i :: (0 <= i < |kws| && kws[i] !in columns
        && (forall j :: 0 <= j < i ==> kws[j] in columns)
        && r == Raised(InvalidKeyword(kws[i])))
    decreases |kws|
  {
    if kws == [] then Ok(())
    else if kws[0] !in columns then Raised(InvalidKeyword(kws[0]))
    else
      var rest := CheckKeywords(kws[1..], columns);
      assert rest.Raised? ==>
        exists i :: (1 <= i < |kws| && kws[i] !in columns
          && (forall j :: 0 <= j < i ==> kws[j] in columns)
          && rest == Raised(InvalidKeyword(kws[i]))) by {
        if rest.Raised? {
          var i :| 0 <= i < |kws[1..]| && kws[1..][i] !in columns
            && (forall j :: 0 <= j < i ==> kws[1..][j] in columns)
            && rest == Raised(InvalidKeyword(kws[1..][i]));
          assert kws[i + 1] == kws[1..][i];
          forall j | 0 <= j < i + 1 ensures kws[j] in columns {
            if j > 0 { assert kws[j] == kws[1..][j - 1]; }
          }
        }
      }
      rest
  }

  /** The keywords `run_analysis` builds its row with. */
  const Keywords := ["prompt", "result", "target_language"]

  /** The model has no `target_language` attribute, so the row cannot be built. */
  lemma TargetLanguageIsRejected()
    ensures CheckKeywords(Keywords, HistoryColumns) == Raised(InvalidKeyword("target_language"))
  {
    assert "prompt" in HistoryColumns && "result" in HistoryColumns;
    assert "target_language" !in HistoryColumns by {
      assert "target_language"[0] == 't';
      assert "timestamp"[1] == 'i';
      assert "target_language"[1] == 'a';
    }
    assert Keywords[1..][1..] == ["target_language"];
  }

  /** With the language column declared, every keyword is an attribute. */
  lemma LanguageColumnAcceptsTheKeywords()
    ensures CheckKeywords(Keywords, ColumnsWithLanguage) == Ok(())
  {
    assert "prompt" in ColumnsWithLanguage && "result" in ColumnsWithLanguage;
    assert "target_language" in ColumnsWithLanguage;
  }

  function Failure(error: string): (r: AnalysisResponse)
    ensures !r.success && r.result == "" && r.error == Some(error)
  {
    AnalysisResponse("", false, Some(error))
  }

  /** `run_analysis` against a `History` model with the given attributes;
      every exception from the workflow, the row or the commit becomes a
      failed response carrying its message. The row stores the request's
      language as given, not upper-cased. */
  method RunAnalysisWith(columns: set<string>, request: AnalysisRequest, service: Service.AnalysisService,
                         db: HistoryStore.HistoryDb, c: WorkflowAgent.Collaborators, commitFailure: Option<Exception>)
    returns (r: AnalysisResponse)
    requires service.Valid() && db.Valid()
    modifies db
    ensures db.Valid()
    ensures r.success <==> db.rows != old(db.rows)
    ensures service.GetAgent().None? ==> r == Failure(NoAgent) && db.rows == old(db.rows)
    ensures service.GetAgent().Some? ==>
      var final := WorkflowAgent.Analyze(InitialState(request), c);
      var built := CheckKeywords(Keywords, columns);
      && (final.Raised? ==> r == Failure(Str(final.exc)) && db.rows == old(db.rows))
      && (final.Ok? && NoResult(final.value) ==> r == Failure(NoInterpretation) && db.rows == old(db.rows))
      && (final.Ok? && !NoResult(final.value) && built.Raised? ==> r == Failure(Str(built.exc)) && db.rows == old(db.rows))
      && (final.Ok? && !NoResult(final.value) && built.Ok? && commitFailure.Some? ==>
            r == Failure(Str(commitFailure.value)) && db.rows == old(db.rows))
      && (final.Ok? && !NoResult(final.value) && built.Ok? && commitFailure.None? ==>
            && r == AnalysisResponse(final.value.interpretation.value, true, None)
            && db.rows == old(db.rows) + [HistoryStore.HistoryRow(old(db.nextId), request.text, r.result, Some(request.userLanguage), old(db.clock))])
  {
    var agent := service.GetAgent();
    if agent.None? {
      return Failure(NoAgent);
    }
    var final, _ := WorkflowAgent.Invoke(InitialState(request), c);
    if final.Raised? {
      return Failure(Str(final.exc));
    }
    if NoResult(final.value) {
      return Failure(NoInterpretation);
    }
    var result := final.value.interpretation.value;
    var built := CheckKeywords(Keywords, columns);
    if built.Raised? {
      return Failure(Str(built.exc));
    }
    var saved := db.Add(request.text, result, Some(request.userLanguage), commitFailure);
    if saved.Raised? {
      return Failure(Str(saved.exc));
    }
    r := AnalysisResponse(result, true, None);
  }

  /** `run_analysis` as written: whatever the workflow produces, the analysis
      is reported as failed and nothing is saved. */
  method RunAnalysisAsWritten(request: AnalysisRequest, service: Service.AnalysisService,
                              db: HistoryStore.HistoryDb, c: WorkflowAgent.Collaborators, commitFailure: Option<Exception>)
    returns (r: AnalysisResponse)
    requires service.Valid() && db.Valid()
    modifies db
    ensures db.Valid()
    ensures !r.success && db.rows == old(db.rows)
    ensures (service.GetAgent().Some? && WorkflowAgent.Analyze(InitialState(request), c).Ok?
             && !NoResult(WorkflowAgent.Analyze(InitialState(request), c).value))
            ==> r == Failure(Str(InvalidKeyword("target_language")))
  {
    TargetLanguageIsRejected();
    r := RunAnalysisWith(HistoryColumns, request, service, db, c, commitFailure);
  }

  /** `run_analysis` as evidently intended, with the language column
      declared: an interpretation that the workflow produced and the commit
      kept is reported, and exactly then one row holding it and the reader's
      language is added. */
  method RunAnalysis(request: AnalysisRequest, service: Service.AnalysisService,
                     db: HistoryStore.HistoryDb, c: WorkflowAgent.Collaborators, commitFailure: Option<Exception>)
    returns (r: AnalysisResponse)
    requires service.Valid() && db.Valid()
    modifies db
    ensures db.Valid()
    ensures r.success <==>
      && service.GetAgent().Some?
      && WorkflowAgent.Analyze(InitialState(request), c).Ok?
      && !NoResult(WorkflowAgent.Analyze(InitialState(request), c).value)
      && commitFailure.None?
    ensures r.success ==>
      && r.result == WorkflowAgent.Analyze(InitialState(request), c).value.interpretation.value
      && db.rows == old(db.rows) + [HistoryStore.HistoryRow(old(db.nextId), request.text, r.result, Some(request.userLanguage), old(db.clock))]
    ensures !r.success ==> r.result == "" && r.error.Some? && db.rows == old(db.rows)
  {
    LanguageColumnAcceptsTheKeywords();
    r := RunAnalysisWith(ColumnsWithLanguage, request, service, db, c, commitFailure);
  }

  /** `get_history_items(db)`: every row once, newest first, or the query's
      error. */
  function GetHistoryItems(db: HistoryStore.HistoryDb, failure: Option<Exception>): (r: HistoryResponse)
    reads db
    requires db.Valid()
    ensures r.success <==> failure.None?
    ensures failure.Some? ==> r == HistoryResponse([], false, Some(Str(failure.value)))
    ensures r.success ==> HistoryStore.NewestFirstOrder(r.history) && multiset(r.history) == multiset(db.rows)
    ensures r.success ==> r.error.None?
  {
    if failure.Some? then HistoryResponse([], false, Some(Str(failure.value)))
    else HistoryResponse(db.NewestFirst(), true, None)
  }

  /** `get_history_item_by_id(history_id, db)` */
  function GetHistoryItemById(id: int, db: HistoryStore.HistoryDb): (r: Option<HistoryItem>)
    reads db
    ensures r.Some? ==> r.value in db.rows && r.value.id == id
    ensures r.None? <==> forall i :: 0 <= i < |db.rows| ==> db.rows[i].id != id
  {
    db.Find(id)
  }

  /** `delete_history_item(history_id, db)`: false for an unknown id; a
      failed commit is not caught. */
  method DeleteHistoryItem(id: int, db: HistoryStore.HistoryDb, commitFailure: Option<Exception>) returns (r: Outcome<bool>)
    requires db.Valid()
    modifies db
    ensures db.Valid()
    ensures r == Ok(false) <==> old(GetHistoryItemById(id, db)).None?
    ensures r == Ok(false) || r.Raised? ==> db.rows == old(db.rows)
    ensures r.Raised? ==> commitFailure.Some? && r == Raised(commitFailure.value)
    ensures r == Ok(true) ==> db.rows == HistoryStore.Without(old(db.rows), id) && |db.rows| == |old(db.rows)| - 1
  {
    if db.Find(id).None? {
      return Ok(false);
    }
    HistoryStore.WithoutFoundShrinks(db.rows, id);
    var removed := db.Remove(id, commitFailure);
    if removed.Raised? {
      return Raised(removed.exc);
    }
    r := Ok(true);
  }

  /** `read_settings(service)`: four characters of the key are shown. */
  function ReadSettings(service: Service.AnalysisService): (r: SettingsResponse)
    reads service
    ensures r.hasApiKey <==> service.settings.geminiApiKey != ""
    ensures r.geminiApiKey == Service.MaskedKey(service.settings.geminiApiKey, 4)
    ensures r.model == service.settings.model && r.success
  {
    var key := service.settings.geminiApiKey;
    SettingsResponse(Service.MaskedKey(key, 4), service.settings.model, key != "", true)
  }

  /** `apply_settings(request, service)` */
  method ApplySettings(request: SettingsRequest, service: Service.AnalysisService) returns (r: SettingsResponse)
    modifies service
    ensures service.Valid()
    ensures service.settings.geminiApiKey ==
      if Service.UsableKey(request.geminiApiKey) then request.geminiApiKey.value else old(service.settings.geminiApiKey)
    ensures service.settings.model == if request.model != "" then request.model else old(service.settings.model)
    ensures r == ReadSettings(service)
  {
    var _ := service.UpdateSettings(request.geminiApiKey, request.model);
    r := ReadSettings(service);
  }
}
