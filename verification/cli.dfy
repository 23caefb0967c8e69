/** backend/cli.py: the `logosai` command handlers, as exit codes and the
    state they leave behind. Reading a file is a parameter. */
module Cli {
  import opened Common
  import opened Schema
  import WorkflowAgent
  import Service
  import HistoryStore
  import UseCases

  const NoInput := "Provide --text or --file"

  /** A command-line option that is present and not empty. */
  predicate Given(o: Option<string>) {
    o.Some? && o.value != ""
  }

  /** `read_input_text(text, file_path)`: a non-empty text wins, then any
      path is read; with neither the call raises. */
  function ReadInputText(text: Option<string>, filePath: Option<string>, readFile: string -> Outcome<string>): (r: Outcome<string>)
    ensures Given(text) ==> r == Ok(text.value)
    ensures !Given(text) && filePath.Some? ==> r == readFile(filePath.value)
    ensures !Given(text) && filePath.None? ==> r == Raised(Exception(ValueError, NoInput))
  {
    if Given(text) then Ok(text.value)
    else if filePath.Some? then readFile(filePath.value)
    else Raised(Exception(ValueError, NoInput))
  }

  /** The input errors `cmd_analyze` reports with exit code 1. */
  predicate InputError(e: Exception) {
    e.kind == OSError || e.kind == ValueError
  }

  /** `cmd_analyze(args)` as written: an input error gives 1 without touching
      the history; otherwise `run_analysis` as written reports a failure, so
      the exit code is 1 and nothing is saved. */
  method CmdAnalyze(text: Option<string>, filePath: Option<string>, lang: string, readFile: string -> Outcome<string>,
                    service: Service.AnalysisService, db: HistoryStore.HistoryDb,
                    c: WorkflowAgent.Collaborators, commitFailure: Option<Exception>) returns (r: Outcome<int>)
    requires service.Valid() && db.Valid()
    modifies db
    ensures db.Valid() && db.rows == old(db.rows)
    ensures ReadInputText(text, filePath, readFile).Raised? ==>
      var e := ReadInputText(text, filePath, readFile).exc;
      r == if InputError(e) then Ok(1) else Raised(e)
    ensures ReadInputText(text, filePath, readFile).Ok? ==> r == Ok(1)
  {
    var input := ReadInputText(text, filePath, readFile);
    if input.Raised? {
      if InputError(input.exc) {
        return Ok(1);
      }
      return Raised(input.exc);
    }
    var request := AnalysisRequest(input.value, Upper(lang));
    var response := UseCases.RunAnalysisAsWritten(request, service, db, c, commitFailure);
    r := Ok(if response.success then 0 else 1);
  }

  /** `cmd_analyze(args)` over the corrected `run_analysis`: 0 exactly when an
      analysis was saved, with the upper-cased language beside it; an input
      error gives 1 without touching the history. */
  method CmdAnalyzeCorrected(text: Option<string>, filePath: Option<string>, lang: string,
                             readFile: string -> Outcome<string>,
                             service: Service.AnalysisService, db: HistoryStore.HistoryDb,
                             c: WorkflowAgent.Collaborators, commitFailure: Option<Exception>) returns (r: Outcome<int>)
    requires service.Valid() && db.Valid()
    modifies db
    ensures db.Valid()
    ensures r.Ok? ==> r.value == 0 || r.value == 1
    ensures ReadInputText(text, filePath, readFile).Raised? ==>
      var e := ReadInputText(text, filePath, readFile).exc;
      && db.rows == old(db.rows)
      && r == if InputError(e) then Ok(1) else Raised(e)
    ensures r == Ok(0) <==> ReadInputText(text, filePath, readFile).Ok? && db.rows != old(db.rows)
    ensures r == Ok(0) ==>
      var request := AnalysisRequest(ReadInputText(text, filePath, readFile).value, Upper(lang));
      var final := WorkflowAgent.Analyze(InitialState(request), c);
      && final.Ok? && !NoResult(final.value)
      && db.rows == old(db.rows) + [HistoryStore.HistoryRow(old(db.nextId), request.text,
           final.value.interpretation.value, Some(Upper(lang)), old(db.clock))]
  {
    var input := ReadInputText(text, filePath, readFile);
    if input.Raised? {
      if InputError(input.exc) {
        return Ok(1);
      }
      return Raised(input.exc);
    }
    var request := AnalysisRequest(input.value, Upper(lang));
    var response := UseCases.RunAnalysis(request, service, db, c, commitFailure);
    r := Ok(if response.success then 0 else 1);
  }

  /** What `history list` shows: its exit code and the items listed. */
  datatype Listing = Listing(code: int, items: seq<HistoryItem>)

  /** `cmd_history_list(args)`: a negative limit or a failed query gives 1;
      otherwise the newest `limit` items, or all of them for limit 0. */
  function CmdHistoryList(limit: int, db: HistoryStore.HistoryDb, failure: Option<Exception>): (r: Listing)
    reads db
    requires db.Valid()
    ensures r.code == 0 <==> limit >= 0 && failure.None?
    ensures r.code != 0 ==> r.code == 1 && r.items == []
    ensures r.code == 0 ==> r.items <= UseCases.GetHistoryItems(db, None).history
    ensures r.code == 0 ==> |r.items| == if limit == 0 then |db.rows| else Min(limit, |db.rows|)
    ensures r.code == 0 ==> HistoryStore.NewestFirstOrder(r.items)
  {
    if limit < 0 then Listing(1, [])
    else
      var response := UseCases.GetHistoryItems(db, failure);
      if !response.success then Listing(1, [])
      else
        var history := response.history;
        assert |history| == |db.rows| by {
          assert |multiset(history)| == |multiset(db.rows)|;
        }
        Listing(0, if limit != 0 then history[..Min(limit, |history|)] else history)
  }

  const PreviewWidth := 80

  /** The prompt column: newlines become spaces, surrounding whitespace is
      dropped, and a prompt longer than 80 characters is cut to 80 and
      marked with "...". */
  function Preview(prompt: string): (r: string)
  {
    var p := Strip(ReplaceAll(prompt, "\n", " "));
    if |p| > PreviewWidth then p[..PreviewWidth] + "..." else p
  }

  /** A preview fits one table row: at most 83 characters, no line break. */
  lemma PreviewFitsOneRow(prompt: string)
    ensures |Preview(prompt)| <= PreviewWidth + 3
    ensures '\n' !in Preview(prompt)
  {
    var replaced := ReplaceAll(prompt, "\n", " ");
    ReplaceCharRemovesIt(prompt, '\n', " ");
    StripKeepsOut(replaced, '\n');
    var p := Strip(replaced);
    if |p| > PreviewWidth {
      var cut := p[..PreviewWidth];
      forall i | 0 <= i < |cut| ensures cut[i] != '\n' {
        assert cut[i] == p[i];
      }
      assert Preview(prompt) == cut + "...";
    }
  }

  /** A short one-line prompt without surrounding whitespace is shown whole. */
  lemma ShortPromptIsShownWhole(prompt: string)
    requires |prompt| <= PreviewWidth && '\n' !in prompt
    requires prompt == [] || (!IsSpace(prompt[0]) && !IsSpace(prompt[|prompt| - 1]))
    ensures Preview(prompt) == prompt
  {
    forall i | 0 <= i < |prompt| ensures !OccursAt(prompt, "\n", i) {
      assert prompt[i..i + 1] == [prompt[i]];
    }
    ReplaceAbsent(prompt, "\n", " ");
    assert StripLeft(prompt) == prompt;
    assert StripRight(prompt) == prompt;
  }

  /** A long prompt keeps its first 80 characters after stripping. */
  lemma LongPromptIsCut(prompt: string)
    requires |Strip(ReplaceAll(prompt, "\n", " "))| > PreviewWidth
    ensures |Preview(prompt)| == PreviewWidth + 3
    ensures Preview(prompt)[..PreviewWidth] == Strip(ReplaceAll(prompt, "\n", " "))[..PreviewWidth]
    ensures Preview(prompt)[PreviewWidth..] == "..."
  {
  }

  /** `cmd_history_show(args)`: 0 exactly when a row has the id. */
  function CmdHistoryShow(id: int, db: HistoryStore.HistoryDb): (r: int)
    reads db
    ensures r == 0 || r == 1
    ensures r == 0 <==> exists i :: 0 <= i < |db.rows| && db.rows[i].id == id
    ensures id < 0 ==> r == 1
  {
    if UseCases.GetHistoryItemById(id, db).None? then 1 else 0
  }

  /** `cmd_history_delete(args)`: 1 for an unknown id; otherwise the row is
      gone and the code is 0, unless the commit raises. */
  method CmdHistoryDelete(id: int, db: HistoryStore.HistoryDb, commitFailure: Option<Exception>) returns (r: Outcome<int>)
    requires db.Valid()
    modifies db
    ensures db.Valid()
    ensures r == Ok(1) <==> forall i :: 0 <= i < |old(db.rows)| ==> old(db.rows)[i].id != id
    ensures id < 0 ==> r == Ok(1) && db.rows == old(db.rows)
    ensures r == Ok(0) ==> db.rows == HistoryStore.Without(old(db.rows), id) && |db.rows| == |old(db.rows)| - 1
    ensures r.Raised? ==> commitFailure.Some? && r == Raised(commitFailure.value) && db.rows == old(db.rows)
    ensures r.Ok? ==> r.value == 0 || r.value == 1
  {
    var deleted := UseCases.DeleteHistoryItem(id, db, commitFailure);
    if deleted.Raised? {
      return Raised(deleted.exc);
    }
    r := Ok(if deleted.value then 0 else 1);
  }

  /** The key as `settings show` prints it: "-" when none is set. */
  function ShownKey(service: Service.AnalysisService): (r: string)
    reads service
    ensures r != ""
    ensures r == "-" <==> service.settings.geminiApiKey == ""
    ensures r != "-" ==> r == Service.MaskedKey(service.settings.geminiApiKey, 4)
  {
    var response := UseCases.ReadSettings(service);
    if response.hasApiKey then response.geminiApiKey else "-"
  }

  /** `cmd_settings_set(args)`: with neither option given nothing changes and
      the code is 1; otherwise the settings are applied, keeping the current
      model when none is given. */
  method CmdSettingsSet(apiKey: Option<string>, model: Option<string>, service: Service.AnalysisService) returns (r: int)
    modifies service
    ensures r == 1 <==> !Given(apiKey) && !Given(model)
    ensures r == 1 ==> service.settings == old(service.settings) && service.agent == old(service.agent)
    ensures r == 0 ==> service.Valid()
    ensures r == 0 ==>
      service.settings.geminiApiKey == (if Service.UsableKey(apiKey) then apiKey.value else old(service.settings.geminiApiKey))
    ensures r == 0 ==> service.settings.model == if Given(model) then model.value else old(service.settings.model)
    ensures r == 0 && !Service.UsableKey(apiKey) && !Given(model) ==> service.settings == old(service.settings)
  {
    if !Given(apiKey) && !Given(model) {
      return 1;
    }
    var chosen := if Given(model) then model.value else service.settings.model;
    var _ := UseCases.ApplySettings(SettingsRequest(apiKey, chosen), service);
    r := 0;
  }
}
