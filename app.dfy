/**
 * The `App` component: seven state cells updated in place by its handlers.
 * Each handler that awaits a request is a Begin method (which returns the
 * request to send, if any) and a Settle method (which takes the request's
 * outcome); the component never checks `loading` itself.
 */
module AppComponent {
  import opened Wrappers
  import opened Payloads
  import Presenter
  import W = Workflow

  class App {
    var selectedFile: Option<LocalFile>
    var storagePath: Field
    var analysisId: Field
    var analysisResults: Option<StatusReply>
    var statusMessage: string
    var loading: bool
    var activeTab: Presenter.Tab

    /** The seven cells as one value. */
    function State(): W.UiState
      reads this
    {
      W.UiState(selectedFile, storagePath, analysisId, analysisResults, statusMessage, loading, activeTab)
    }

    /** The `useState` initial values. */
    constructor ()
      ensures State() == W.Initial
    {
      selectedFile := None;
      storagePath := Null;
      analysisId := Null;
      analysisResults := None;
      statusMessage := "";
      loading := false;
      activeTab := Presenter.Overview;
    }

    /** `handleFileChange`, given the first picked file (none when the dialog was cancelled). */
    method HandleFileChange(file: Option<LocalFile>)
      modifies this
      ensures State() == W.SelectFile(old(State()), file)
      ensures storagePath == Null && analysisId == Null && analysisResults == None
      ensures loading == old(loading)
    {
      selectedFile := file;
      storagePath := Null;
      analysisId := Null;
      analysisResults := None;
      statusMessage := W.FileSelectedMsg;
      activeTab := Presenter.Overview;
    }

    /** `handleUpload` up to its `await`: returns what is to be sent, if anything. */
    method BeginUpload() returns (request: Option<W.UploadRequest>)
      modifies this
      ensures State() == W.BeginUpload(old(State()))
      ensures request == W.UploadRequestFor(old(State()))
      ensures request.Some? <==> old(selectedFile).Some?
      ensures request.Some? ==> loading && request.value.file == selectedFile.value
      ensures request.None? ==> loading == old(loading)
    {
      if selectedFile.None? {
        statusMessage := W.SelectFirstMsg;
        return None;
      }
      loading := true;
      statusMessage := W.UploadingMsg;
      request := Some(W.UploadRequest(selectedFile.value, W.UserId));
    }

    /** `handleUpload` after its `await`. */
    method SettleUpload(outcome: Outcome<UploadReply>)
      modifies this
      ensures State() == W.SettleUpload(old(State()), outcome)
      ensures !loading
    {
      match outcome {
        case Ok(reply) =>
          storagePath := reply.storagePath;
          statusMessage := W.SuccessMsg(reply.message);
        case Fail =>
          statusMessage := W.UploadFailedMsg;
      }
      loading := false;
    }

    /** `startAnalysis` up to its `await`: returns the request body, if anything is to be sent. */
    method BeginStartAnalysis() returns (request: Option<W.StartRequest>)
      modifies this
      ensures State() == W.BeginStart(old(State()))
      ensures request == W.StartRequestFor(old(State()))
      ensures request.Some? <==> Truthy(old(storagePath))
      ensures request.Some? ==> loading && request.value.filePath == storagePath.s
      ensures request.None? ==> loading == old(loading)
    {
      if !Truthy(storagePath) {
        statusMessage := W.UploadFirstMsg;
        return None;
      }
      loading := true;
      statusMessage := W.StartingMsg;
      var fileId := W.FileIdOf(storagePath.s);
      request := Some(W.StartRequest(fileId, W.UserId, storagePath.s));
    }

    /** `startAnalysis` after its `await`. */
    method SettleStartAnalysis(outcome: Outcome<StartReply>)
      modifies this
      ensures State() == W.SettleStart(old(State()), outcome)
      ensures !loading
    {
      match outcome {
        case Ok(reply) =>
          analysisId := reply.analysisId;
          statusMessage := W.SuccessMsg(reply.message);
        case Fail =>
          statusMessage := W.StartFailedMsg;
      }
      loading := false;
    }

    /** `checkAnalysisStatus` up to its `await`: returns the id for the status URL, if anything is to be sent. */
    method BeginStatusCheck() returns (id: Option<string>)
      modifies this
      ensures State() == W.BeginStatus(old(State()))
      ensures id == W.StatusRequestFor(old(State()))
      ensures id.Some? <==> Truthy(old(analysisId))
      ensures id.Some? ==> loading && id.value == analysisId.s
      ensures id.None? ==> loading == old(loading)
    {
      if !Truthy(analysisId) {
        statusMessage := W.StartFirstMsg;
        return None;
      }
      loading := true;
      statusMessage := W.CheckingMsg;
      id := Some(analysisId.s);
    }

    /** `checkAnalysisStatus` after its `await`. */
    method SettleStatusCheck(outcome: Outcome<StatusReply>)
      modifies this
      ensures State() == W.SettleStatus(old(State()), outcome)
      ensures !loading
    {
      match outcome {
        case Ok(reply) =>
          analysisResults := Some(reply);
          statusMessage := W.SuccessMsg(reply.message);
        case Fail =>
          statusMessage := W.CheckFailedMsg;
      }
      loading := false;
    }

    /** `resetAnalysis`. */
    method ResetAnalysis()
      modifies this
      ensures State() == W.Reset(old(State()))
      ensures selectedFile == None && storagePath == Null && analysisId == Null && analysisResults == None
      ensures loading == old(loading)
    {
      selectedFile := None;
      storagePath := Null;
      analysisId := Null;
      analysisResults := None;
      statusMessage := W.ResetMsg;
      activeTab := Presenter.Overview;
    }

    /** A tab button's click. */
    method SetActiveTab(tab: Presenter.Tab)
      modifies this
      ensures State() == W.SelectTab(old(State()), tab)
    {
      activeTab := tab;
    }
  }
}
