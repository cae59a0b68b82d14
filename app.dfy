/** The top-level screen (App.tsx): two file slots with previews, the notes, the
    screen status, the last analysis result and the error message, and the handlers
    that change them. `handleSubmit` and `handleFileChange` are asynchronous; each is
    modelled as the part that runs at once and the part that runs when the awaited
    call or the file reader finishes. The analysis call's outcome is a parameter. */
module AppView {

  import opened Types
  import GeminiService

  /** The message shown when the thrown error carries none. */
  const FallbackError := "An unexpected error occurred while analyzing the document."

  /** A file the user picked; its bytes are not modelled. */
  datatype File = File(name: string, mimeType: string)

  /** What `analyzeDocument` is called with. */
  datatype Upload = Upload(files: seq<File>, notes: string)

  /** `filesToUpload`: the primary file, then the comparison file when there is one. */
  function UploadList(primary: File, secondary: Option<File>): (files: seq<File>)
    ensures 1 <= |files| <= 2 && files[0] == primary
    ensures |files| == 2 <==> secondary.Some?
    ensures secondary.Some? ==> files[1] == secondary.value
  {
    match secondary
    case Some(f) => [primary, f]
    case None => [primary]
  }

  /** `err.message || fallback`: never empty, the error's own message when it has one. */
  function ErrorText(message: string): (t: string)
    ensures t != ""
    ensures message != "" ==> t == message
    ensures message == "" ==> t == FallbackError
  {
    if message != "" then message else FallbackError
  }

  /** Which parts of the page are rendered. */
  datatype Screen = Screen(
    hero: bool,
    inputForm: bool,
    submitEnabled: bool,
    spinner: bool,
    errorPanel: Option<string>,
    resultView: Option<AnalysisResult>,
    printButton: bool,
    resetButton: bool)

  class App {
    var file1: Option<File>
    var file1Preview: Option<string>
    var file2: Option<File>
    var file2Preview: Option<string>
    var notes: string
    var status: AppStatus
    var result: Option<AnalysisResult>
    var errorMsg: Option<string>

    /** A preview only exists for a chosen file; a successful screen has a result;
        an error screen has a message; an analysis in progress has no stale error. */
    ghost predicate Valid()
      reads this
    {
      && (file1Preview.Some? ==> file1.Some?)
      && (file2Preview.Some? ==> file2.Some?)
      && (status == Success ==> result.Some?)
      && (status == Error ==> errorMsg.Some? && errorMsg.value != "")
      && (status == Analyzing ==> errorMsg.None?)
    }

    /** The render guards of the page: the form on IDLE, the spinner on ANALYZING,
        the error panel on ERROR, the result view on SUCCESS with a result, so never
        two main panels at once; "Start New Analysis" exactly when the form is hidden. */
    function View(): (s: Screen)
      reads this
      ensures s.inputForm <==> status == Idle
      ensures s.spinner <==> status == Analyzing
      ensures s.errorPanel.Some? <==> status == Error
      ensures s.resultView.Some? <==> status == Success && result.Some?
      ensures s.resultView.Some? ==> s.resultView == result
      ensures s.resetButton <==> !s.inputForm
      ensures s.printButton <==> status == Success
      ensures s.hero <==> result.None?
      ensures s.submitEnabled <==> file1.Some?
      ensures (if s.inputForm then 1 else 0) + (if s.spinner then 1 else 0)
              + (if s.errorPanel.Some? then 1 else 0) + (if s.resultView.Some? then 1 else 0) <= 1
    {
      Screen(
        hero := result.None?,
        inputForm := status == Idle,
        submitEnabled := file1.Some?,
        spinner := status == Analyzing,
        errorPanel := if status == Error then Some(if errorMsg.Some? then errorMsg.value else "") else None,
        resultView := if status == Success && result.Some? then result else None,
        printButton := status == Success,
        resetButton := status != Idle)
    }

    constructor ()
      ensures Valid()
      ensures file1.None? && file1Preview.None? && file2.None? && file2Preview.None?
      ensures notes == "" && status == Idle && result.None? && errorMsg.None?
    {
      file1, file1Preview := None, None;
      file2, file2Preview := None, None;
      notes := "";
      status := Idle;
      result := None;
      errorMsg := None;
    }

    /** `handleFileChange`, the part that runs at once: when a file was chosen, the
        screen returns to IDLE and the result and error are dropped. The slot itself
        is filled later, by `FileLoaded`. */
    method ChooseFile(selected: Option<File>)
      requires Valid()
      modifies this`status, this`result, this`errorMsg
      ensures Valid()
      ensures selected.None? ==> status == old(status) && result == old(result) && errorMsg == old(errorMsg)
      ensures selected.Some? ==> status == Idle && result.None? && errorMsg.None?
    {
      if selected.Some? {
        status := Idle;
        result := None;
        errorMsg := None;
      }
    }

    /** The file reader's `onloadend`: the chosen slot gets the file and its data URL. */
    method FileLoaded(isSecondary: bool, file: File, dataUrl: Option<string>)
      requires Valid()
      modifies this`file1, this`file1Preview, this`file2, this`file2Preview
      ensures Valid()
      ensures isSecondary ==> file2 == Some(file) && file2Preview == dataUrl
                              && file1 == old(file1) && file1Preview == old(file1Preview)
      ensures !isSecondary ==> file1 == Some(file) && file1Preview == dataUrl
                               && file2 == old(file2) && file2Preview == old(file2Preview)
    {
      if isSecondary {
        file2, file2Preview := Some(file), dataUrl;
      } else {
        file1, file1Preview := Some(file), dataUrl;
      }
    }

    /** `removeFile`: empties one slot and its preview; the other slot is untouched. */
    method RemoveFile(isSecondary: bool)
      requires Valid()
      modifies this`file1, this`file1Preview, this`file2, this`file2Preview
      ensures Valid()
      ensures isSecondary ==> file2.None? && file2Preview.None?
                              && file1 == old(file1) && file1Preview == old(file1Preview)
      ensures !isSecondary ==> file1.None? && file1Preview.None?
                               && file2 == old(file2) && file2Preview == old(file2Preview)
    {
      if isSecondary {
        file2, file2Preview := None, None;
      } else {
        file1, file1Preview := None, None;
      }
    }

    /** The notes box. */
    method EditNotes(text: string)
      requires Valid()
      modifies this`notes
      ensures Valid() && notes == text
    {
      notes := text;
    }

    /** `handleSubmit` up to its `await`: without a primary file nothing happens;
        otherwise the screen shows ANALYZING, the error is cleared, the previous
        result is kept, and the returned upload is what the analysis is called with. */
    method Submit() returns (upload: Option<Upload>)
      requires Valid()
      modifies this`status, this`errorMsg
      ensures Valid()
      ensures upload.None? <==> old(file1).None?
      ensures upload.None? ==> status == old(status) && errorMsg == old(errorMsg)
      ensures upload.Some? ==>
        && status == Analyzing && errorMsg.None?
        && upload.value == Upload(UploadList(file1.value, file2), notes)
      ensures result == old(result)
    {
      if file1.None? {
        return None;
      }
      status := Analyzing;
      errorMsg := None;
      upload := Some(Upload(UploadList(file1.value, file2), notes));
    }

    /** `handleSubmit` after its `await`: a result is stored and shown; a failure
        shows the error screen with the error's message or the fallback text and
        leaves the stored result as it was. */
    method FinishAnalysis(outcome: Outcome<AnalysisResult>)
      requires Valid()
      modifies this`status, this`result, this`errorMsg
      ensures Valid()
      ensures outcome.Ok? ==> status == Success && result == Some(outcome.value) && errorMsg == old(errorMsg)
      ensures outcome.Failed? ==>
        status == Error && errorMsg == Some(ErrorText(outcome.message)) && result == old(result)
    {
      match outcome
      case Ok(r) =>
        result := Some(r);
        status := Success;
      case Failed(m) =>
        status := Error;
        errorMsg := Some(ErrorText(m));
    }

    /** The whole of `handleSubmit` with the analysis call's outcome. */
    method HandleSubmit(outcome: Outcome<AnalysisResult>) returns (upload: Option<Upload>)
      requires Valid()
      modifies this`status, this`result, this`errorMsg
      ensures Valid()
      ensures upload.None? <==> old(file1).None?
      ensures upload.None? ==> status == old(status) && result == old(result) && errorMsg == old(errorMsg)
      ensures upload.Some? ==> 1 <= |upload.value.files| <= 2 && upload.value.files[0] == old(file1).value
      ensures upload.Some? && outcome.Ok? ==> status == Success && result == Some(outcome.value) && errorMsg.None?
      ensures upload.Some? && outcome.Failed? ==>
        status == Error && errorMsg == Some(ErrorText(outcome.message)) && result == old(result)
    {
      upload := Submit();
      if upload.Some? {
        FinishAnalysis(outcome);
      }
    }

    /** `resetApp`: both slots, both previews, the notes and the result are cleared and
        the screen returns to IDLE; the error message is left as it was. */
    method ResetApp()
      requires Valid()
      modifies this`file1, this`file1Preview, this`file2, this`file2Preview, this`notes, this`result, this`status
      ensures Valid()
      ensures file1.None? && file1Preview.None? && file2.None? && file2Preview.None?
      ensures notes == "" && result.None? && status == Idle
      ensures errorMsg == old(errorMsg)
    {
      file1, file1Preview := None, None;
      file2, file2Preview := None, None;
      notes := "";
      result := None;
      status := Idle;
    }

    /** "Try Again": back to IDLE with files, notes, result and message kept. */
    method TryAgain()
      requires Valid()
      modifies this`status
      ensures Valid() && status == Idle
    {
      status := Idle;
    }
  }

  /** On a consistent state exactly one main panel is rendered: the input form, the
      spinner, the error panel or the result view. The result view appears exactly on
      SUCCESS, and the reset button exactly when the input form is not shown. */
  lemma ScreenShowsOnePanel(app: App)
    requires app.Valid()
    ensures var s := app.View();
      && (s.resultView.Some? <==> app.status == Success)
      && (s.resultView.Some? ==> s.resultView == app.result)
      && (s.resetButton <==> !s.inputForm)
      && (s.errorPanel.Some? ==> s.errorPanel.value != "")
      && (if s.inputForm then 1 else 0) + (if s.spinner then 1 else 0)
         + (if s.errorPanel.Some? then 1 else 0) + (if s.resultView.Some? then 1 else 0) == 1
  {
  }

  /** Submitting without a service key ends on the error screen with the
      configuration message, whatever the service would have replied. */
  method SubmitWithoutKey(file: File, reply: GeminiService.Reply) returns (screen: Screen)
    ensures screen.errorPanel == Some(GeminiService.MissingKeyMessage)
    ensures screen.resultView.None? && !screen.inputForm
  {
    var app := new App();
    app.FileLoaded(false, file, None);
    var upload := app.Submit();
    app.FinishAnalysis(GeminiService.AnalyzeDocument(None, reply));
    screen := app.View();
  }

  /** A reset while the analysis is pending does not cancel it: when the call
      returns, the result screen appears although both slots have been emptied. */
  method ResetDuringAnalysis(file: File, analysis: AnalysisResult) returns (screen: Screen, slotsEmpty: bool)
    ensures screen.resultView == Some(analysis)
    ensures slotsEmpty
  {
    var app := new App();
    app.FileLoaded(false, file, None);
    var upload := app.Submit();
    app.ResetApp();
    app.FinishAnalysis(Ok(analysis));
    screen := app.View();
    slotsEmpty := app.file1.None? && app.file2.None?;
  }
}
