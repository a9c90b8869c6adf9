/** The application shell (App.tsx): which screen is shown, the chosen
    mode, the analysis result, the source material kept for later
    generation, the generated exam text and the error banner. Each
    asynchronous handler is split at its `await`: `Begin…` is what happens
    before the remote call, and `Finish…` takes the call's outcome (a value,
    or the failure it raised) as a parameter. */
module App {
  import opened Types

  const AnalyzeFailedMessage := "Failed to analyze the exam. Please try again with a different file or text."
  const WalkthroughFailedMessage := "Failed to generate solution walkthrough. Please try again."
  const GenerateFailedMessage := "Failed to generate the exam. Please try again."

  /** The three main views the shell can render. */
  datatype Screen = UploadScreen | DashboardScreen | ExamScreen

  /** The views rendered for a state, given whether an analysis result exists. */
  function VisibleScreens(state: AppState, hasResult: bool): (s: set<Screen>)
    ensures |s| <= 1
    ensures UploadScreen in s <==> state == Upload || state == Analyzing
    ensures DashboardScreen in s <==> (state == Dashboard || state == Generating) && hasResult
    ensures ExamScreen in s <==> state == ExamView
    ensures state == Solving ==> s == {}
  {
    if state == Upload || state == Analyzing then {UploadScreen}
    else if (state == Dashboard || state == Generating) && hasResult then {DashboardScreen}
    else if state == ExamView then {ExamScreen}
    else {}
  }

  class App {
    var appState: AppState
    var appMode: AppMode
    var analysisResult: Option<AnalysisResult>
    var sourceFiles: seq<FileData>
    var sourceText: string
    var examContent: string
    var error: Option<string>

    /** The screens that need an analysis result hold one, and the unused
        SOLVING state is not entered. Every handler keeps this when it runs
        from the state its button is shown in, but a generation that
        completes after a reset does not (`StaleGenerationAfterReset`). */
    predicate Valid()
      reads this
    {
      appState != Solving
      && ((appState == Dashboard || appState == Generating || appState == ExamView) ==> analysisResult.Some?)
    }

    /** Exactly one view is rendered in every state satisfying `Valid`. */
    lemma ValidShowsAScreen()
      requires Valid()
      ensures |VisibleScreens(appState, analysisResult.Some?)| == 1
    {
      var s := VisibleScreens(appState, analysisResult.Some?);
      if appState == Upload || appState == Analyzing {
        assert s == {UploadScreen};
      } else if appState == ExamView {
        assert s == {ExamScreen};
      } else {
        assert s == {DashboardScreen};
      }
    }

    constructor ()
      ensures appState == Upload && appMode == NoMode && analysisResult == None
      ensures sourceFiles == [] && sourceText == "" && examContent == "" && error == None
      ensures Valid()
    {
      appState := Upload;
      appMode := NoMode;
      analysisResult := None;
      sourceFiles := [];
      sourceText := "";
      examContent := "";
      error := None;
    }

    /** `handleModeSelect`: set the mode, go to the upload screen and clear
        the error. */
    method ModeSelect(mode: AppMode)
      modifies this
      ensures appMode == mode && appState == Upload && error == None
      ensures analysisResult == old(analysisResult) && sourceFiles == old(sourceFiles)
      ensures sourceText == old(sourceText) && examContent == old(examContent)
      ensures Valid()
    {
      appMode := mode;
      appState := Upload;
      error := None;
    }

    /** `handleAnalyze` up to its remote call: show the progress state,
        clear the error and keep the inputs for later generation. */
    method BeginAnalyze(files: seq<FileData>, text: string)
      modifies this
      ensures appState == Analyzing && error == None && sourceFiles == files && sourceText == text
      ensures appMode == old(appMode) && analysisResult == old(analysisResult) && examContent == old(examContent)
      ensures Valid()
    {
      appState := Analyzing;
      error := None;
      sourceFiles := files;
      sourceText := text;
    }

    /** `handleAnalyze` after its remote call: a result is stored and the
        dashboard shown; a failure sets the fixed error and returns to the
        upload screen. */
    method FinishAnalyze(outcome: Result<AnalysisResult>)
      modifies this
      ensures outcome.Success? ==> analysisResult == Some(outcome.value) && appState == Dashboard
                                   && error == old(error)
      ensures outcome.Failure? ==> analysisResult == old(analysisResult) && appState == Upload
                                   && error == Some(AnalyzeFailedMessage)
      ensures appMode == old(appMode) && sourceFiles == old(sourceFiles) && sourceText == old(sourceText)
      ensures examContent == old(examContent)
      ensures Valid()
    {
      match outcome
      case Success(result) =>
        analysisResult := Some(result);
        appState := Dashboard;
      case Failure(_) =>
        error := Some(AnalyzeFailedMessage);
        appState := Upload;
    }

    /** `handleWalkthrough` up to its remote call. */
    method BeginWalkthrough()
      modifies this
      ensures appState == Generating && error == None
      ensures appMode == old(appMode) && analysisResult == old(analysisResult) && sourceFiles == old(sourceFiles)
      ensures sourceText == old(sourceText) && examContent == old(examContent)
      ensures old(Valid()) && (old(appState) == Dashboard || old(appState) == Generating) ==> Valid()
    {
      appState := Generating;
      error := None;
    }

    /** `handleWalkthrough` after its remote call. */
    method FinishWalkthrough(outcome: Result<string>)
      modifies this
      ensures outcome.Success? ==> examContent == outcome.value && appState == ExamView && error == old(error)
      ensures outcome.Failure? ==> examContent == old(examContent) && appState == Dashboard
                                   && error == Some(WalkthroughFailedMessage)
      ensures appMode == old(appMode) && analysisResult == old(analysisResult)
      ensures sourceFiles == old(sourceFiles) && sourceText == old(sourceText)
      ensures old(Valid()) && old(appState) == Generating ==> Valid()
    {
      match outcome
      case Success(content) =>
        examContent := content;
        appState := ExamView;
      case Failure(_) =>
        error := Some(WalkthroughFailedMessage);
        appState := Dashboard;
    }

    /** `handleGenerateExam` up to its remote call: nothing at all happens
        without an analysis result; otherwise the progress state is shown.
        Unlike the other two handlers it does not clear the error. */
    method BeginGenerateExam() returns (started: bool)
      modifies this
      ensures started <==> old(analysisResult).Some?
      ensures started ==> appState == Generating
      ensures !started ==> appState == old(appState)
      ensures error == old(error) && appMode == old(appMode) && analysisResult == old(analysisResult)
      ensures sourceFiles == old(sourceFiles) && sourceText == old(sourceText) && examContent == old(examContent)
      ensures old(Valid()) ==> Valid()
    {
      if analysisResult.None? {
        return false;
      }
      appState := Generating;
      started := true;
    }

    /** `handleGenerateExam` after its remote call. */
    method FinishGenerateExam(outcome: Result<string>)
      modifies this
      ensures outcome.Success? ==> examContent == outcome.value && appState == ExamView && error == old(error)
      ensures outcome.Failure? ==> examContent == old(examContent) && appState == Dashboard
                                   && error == Some(GenerateFailedMessage)
      ensures appMode == old(appMode) && analysisResult == old(analysisResult)
      ensures sourceFiles == old(sourceFiles) && sourceText == old(sourceText)
      ensures old(Valid()) && old(appState) == Generating ==> Valid()
    {
      match outcome
      case Success(content) =>
        examContent := content;
        appState := ExamView;
      case Failure(_) =>
        error := Some(GenerateFailedMessage);
        appState := Dashboard;
    }

    /** `handleReset`: forget everything but the mode and start over. */
    method Reset()
      modifies this
      ensures analysisResult == None && sourceFiles == [] && sourceText == "" && examContent == "" && error == None
      ensures appState == Upload && appMode == old(appMode)
      ensures Valid()
    {
      analysisResult := None;
      sourceFiles := [];
      sourceText := "";
      examContent := "";
      error := None;
      appState := Upload;
    }

    /** `handleBackToDashboard`, the exam view's back button. */
    method BackToDashboard()
      modifies this
      ensures appState == Dashboard
      ensures appMode == old(appMode) && analysisResult == old(analysisResult) && sourceFiles == old(sourceFiles)
      ensures sourceText == old(sourceText) && examContent == old(examContent) && error == old(error)
      ensures old(Valid()) && old(appState) == ExamView ==> Valid()
    {
      appState := Dashboard;
    }
  }

  /** The dashboard's "Start New Analysis" button stays live while an exam
      is generating, and the pending call still completes afterwards: once
      an analysis exists, generate, reset, and a successful generation
      leads to the exam view with no analysis result; its back button then
      leads to a state in which no view is rendered at all. */
  method StaleGenerationAfterReset(result: AnalysisResult, content: string) returns (app: App)
    ensures app.appState == Dashboard && app.analysisResult == None && app.examContent == content
    ensures VisibleScreens(app.appState, app.analysisResult.Some?) == {}
    ensures !app.Valid()
  {
    app := new App();
    app.BeginAnalyze([], "exam");
    app.FinishAnalyze(Success(result));
    var started := app.BeginGenerateExam();
    assert started && app.appState == Generating;
    app.Reset();
    app.FinishGenerateExam(Success(content));
    assert app.appState == ExamView && app.analysisResult == None;
    app.BackToDashboard();
  }
}
