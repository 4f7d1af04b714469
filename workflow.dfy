/**
 * The component's state as a value, and each handler step as a function of
 * it: the specification the `App` class is proved against. A handler that
 * awaits a request is split into a Begin step (guard, `loading = true`,
 * progress message, request) and a Settle step (the outcome applied,
 * `loading = false`).
 */
module Workflow {
  import opened Wrappers
  import opened Payloads
  import opened Presenter
  import JsText

  /** The caller identifier sent with the upload and the analysis start. */
  const UserId := "test-user-test"

  // Status messages.
  const FileSelectedMsg := "Выбран новый файл. Нажмите 'Загрузить файл' для начала анализа."
  const SelectFirstMsg := "Пожалуйста, сначала выберите файл."
  const UploadingMsg := "Загрузка файла..."
  const UploadFailedMsg := "❌ Ошибка при загрузке файла."
  const UploadFirstMsg := "Сначала загрузите файл."
  const StartingMsg := "Запуск анализа..."
  const StartFailedMsg := "❌ Ошибка при запуске анализа."
  const StartFirstMsg := "Сначала запустите анализ."
  const CheckingMsg := "Проверка статуса анализа..."
  const CheckFailedMsg := "❌ Ошибка при проверке статуса анализа."
  const ResetMsg := "Выберите новый файл для анализа"
  const Completed := "completed"

  /** The seven state cells of the component. */
  datatype UiState = UiState(
    selectedFile: Option<LocalFile>,
    storagePath: Field,
    analysisId: Field,
    analysisResults: Option<StatusReply>,
    statusMessage: string,
    loading: bool,
    activeTab: Tab)

  /** The state on first render. */
  const Initial := UiState(None, Null, Null, None, "", false, Overview)

  /** What the upload sends: the file, as form data, and the caller id, as a query parameter. */
  datatype UploadRequest = UploadRequest(file: LocalFile, userId: string)

  /** The JSON body of the analysis start; a `Missing` file id is left out by `JSON.stringify`. */
  datatype StartRequest = StartRequest(fileId: Field, userId: string, filePath: string)

  /** "✅ " followed by the reply's message. */
  function SuccessMsg(message: Field): string
  {
    "✅ " + Interpolate(message)
  }

  // ---------------------------------------------------------------- handlers

  /** `handleFileChange`: the picked file (none if the dialog was cancelled) replaces everything downstream. */
  function SelectFile(s: UiState, file: Option<LocalFile>): UiState
  {
    s.(selectedFile := file, storagePath := Null, analysisId := Null, analysisResults := None,
       statusMessage := FileSelectedMsg, activeTab := Overview)
  }

  /** `handleUpload` up to its `await`. */
  function BeginUpload(s: UiState): UiState
  {
    if s.selectedFile.None? then s.(statusMessage := SelectFirstMsg)
    else s.(loading := true, statusMessage := UploadingMsg)
  }

  /** The request `handleUpload` sends, if it gets past its guard. */
  function UploadRequestFor(s: UiState): Option<UploadRequest>
  {
    if s.selectedFile.None? then None else Some(UploadRequest(s.selectedFile.value, UserId))
  }

  /** `handleUpload` after its `await`: the `try`/`catch` and the `finally`. */
  function SettleUpload(s: UiState, outcome: Outcome<UploadReply>): UiState
  {
    match outcome
    case Ok(reply) =>
      s.(storagePath := reply.storagePath, statusMessage := SuccessMsg(reply.message), loading := false)
    case Fail =>
      s.(statusMessage := UploadFailedMsg, loading := false)
  }

  /**
   * `storagePath.split("/")[2]`: `undefined` when the path has fewer than two
   * slashes, otherwise a slash-free segment.
   */
  function FileIdOf(path: string): (id: Field)
    ensures id.Text? ==> '/' !in id.s
    ensures !id.Text? ==> id == Missing
  {
    JsText.SplitPiecesFree(path, '/');
    var parts := JsText.Split(path, '/');
    if |parts| > 2 then Text(parts[2]) else Missing
  }

  /** `startAnalysis` up to its `await`. */
  function BeginStart(s: UiState): UiState
  {
    if !Truthy(s.storagePath) then s.(statusMessage := UploadFirstMsg)
    else s.(loading := true, statusMessage := StartingMsg)
  }

  /** The request `startAnalysis` sends, if it gets past its guard. */
  function StartRequestFor(s: UiState): Option<StartRequest>
  {
    if !Truthy(s.storagePath) then None
    else Some(StartRequest(FileIdOf(s.storagePath.s), UserId, s.storagePath.s))
  }

  /** `startAnalysis` after its `await`. */
  function SettleStart(s: UiState, outcome: Outcome<StartReply>): UiState
  {
    match outcome
    case Ok(reply) =>
      s.(analysisId := reply.analysisId, statusMessage := SuccessMsg(reply.message), loading := false)
    case Fail =>
      s.(statusMessage := StartFailedMsg, loading := false)
  }

  /** `checkAnalysisStatus` up to its `await`. */
  function BeginStatus(s: UiState): UiState
  {
    if !Truthy(s.analysisId) then s.(statusMessage := StartFirstMsg)
    else s.(loading := true, statusMessage := CheckingMsg)
  }

  /** The analysis id `checkAnalysisStatus` puts in the status URL, if it gets past its guard. */
  function StatusRequestFor(s: UiState): Option<string>
  {
    if !Truthy(s.analysisId) then None else Some(s.analysisId.s)
  }

  /** `checkAnalysisStatus` after its `await`: any successful reply is stored, whatever its status. */
  function SettleStatus(s: UiState, outcome: Outcome<StatusReply>): UiState
  {
    match outcome
    case Ok(reply) =>
      s.(analysisResults := Some(reply), statusMessage := SuccessMsg(reply.message), loading := false)
    case Fail =>
      s.(statusMessage := CheckFailedMsg, loading := false)
  }

  /** `resetAnalysis`. */
  function Reset(s: UiState): UiState
  {
    s.(selectedFile := None, storagePath := Null, analysisId := Null, analysisResults := None,
       statusMessage := ResetMsg, activeTab := Overview)
  }

  /** A tab button's `onClick`. */
  function SelectTab(s: UiState, tab: Tab): UiState
  {
    s.(activeTab := tab)
  }

  // ------------------------------------------------------------------- views

  /** `disabled={loading || !selectedFile}`, negated. */
  predicate UploadEnabled(s: UiState)
  {
    !s.loading && s.selectedFile.Some?
  }

  /** `disabled={loading || !storagePath}`, negated. */
  predicate StartEnabled(s: UiState)
  {
    !s.loading && Truthy(s.storagePath)
  }

  /** `disabled={loading || !analysisId}`, negated. */
  predicate StatusEnabled(s: UiState)
  {
    !s.loading && Truthy(s.analysisId)
  }

  /** The reset button is rendered when there are results. */
  predicate ResetShown(s: UiState)
  {
    s.analysisResults.Some?
  }

  /** The results section (tabs and content) is rendered when the stored reply's status is "completed". */
  predicate ResultsShown(s: UiState)
  {
    s.analysisResults.Some? && s.analysisResults.value.status == Text(Completed)
  }

  /** The status line is rendered when the message is non-empty. */
  predicate MessageShown(s: UiState)
  {
    s.statusMessage != ""
  }

  /** The results section: hidden, rendering throws, or the active tab's content. */
  datatype ResultsPanel = Hidden | Crashed | Shown(tab: Tab, sections: seq<Section>)

  function Results(s: UiState): (p: ResultsPanel)
    ensures p.Hidden? <==> !ResultsShown(s)
    ensures p.Crashed? <==> (ResultsShown(s) && (s.analysisResults.value.result.None? ||
                             TabContent(s.activeTab, s.analysisResults.value.result.value).None?))
    ensures p.Shown? ==> p.tab == s.activeTab && s.analysisResults.value.result.Some? &&
                         TabContent(s.activeTab, s.analysisResults.value.result.value) == Some(p.sections)
  {
    if !ResultsShown(s) then Hidden
    else match s.analysisResults.value.result
      case None => Crashed
      case Some(r) =>
        match TabContent(s.activeTab, r)
        case None => Crashed
        case Some(sections) => Shown(s.activeTab, sections)
  }

  // -------------------------------------------------------------- properties

  /** Picking a file clears everything downstream of it, whatever the prior state, and leaves `loading` alone. */
  lemma SelectFileClearsDownstream(s: UiState, file: Option<LocalFile>)
    ensures var t := SelectFile(s, file);
      t.selectedFile == file && t.storagePath == Null && t.analysisId == Null && t.analysisResults == None &&
      t.statusMessage == FileSelectedMsg && t.activeTab == Overview && t.loading == s.loading
    ensures var t := SelectFile(s, file);
      !StartEnabled(t) && !StatusEnabled(t) && !ResetShown(t) && !ResultsShown(t) &&
      (UploadEnabled(t) <==> !s.loading && file.Some?)
  {
  }

  /** Reset is picking "no file" with its own message; afterwards only picking a file is possible. */
  lemma ResetClearsEverything(s: UiState)
    ensures Reset(s) == SelectFile(s, None).(statusMessage := ResetMsg)
    ensures var t := Reset(s);
      t.selectedFile == None && t.storagePath == Null && t.analysisId == Null && t.analysisResults == None &&
      t.activeTab == Overview && t.loading == s.loading
    ensures var t := Reset(s);
      !UploadEnabled(t) && !StartEnabled(t) && !StatusEnabled(t) && !ResetShown(t) && !ResultsShown(t)
  {
  }

  /** With its precondition field absent, a handler only sets its prompt and sends nothing; `loading` stays. */
  lemma AbsentFieldOnlyPrompts(s: UiState)
    ensures s.selectedFile.None? ==>
      BeginUpload(s) == s.(statusMessage := SelectFirstMsg) && UploadRequestFor(s).None?
    ensures !Truthy(s.storagePath) ==>
      BeginStart(s) == s.(statusMessage := UploadFirstMsg) && StartRequestFor(s).None?
    ensures !Truthy(s.analysisId) ==>
      BeginStatus(s) == s.(statusMessage := StartFirstMsg) && StatusRequestFor(s).None?
  {
  }

  /** Each button is enabled exactly when nothing is loading and its handler would get past its guard. */
  lemma ButtonsMatchGuards(s: UiState)
    ensures UploadEnabled(s) <==> !s.loading && UploadRequestFor(s).Some?
    ensures StartEnabled(s) <==> !s.loading && StartRequestFor(s).Some?
    ensures StatusEnabled(s) <==> !s.loading && StatusRequestFor(s).Some?
  {
  }

  /** A handler that gets past its guard sets `loading` and its progress message, and nothing else. */
  lemma BeginRaisesLoading(s: UiState)
    ensures UploadRequestFor(s).Some? ==>
      BeginUpload(s) == s.(loading := true, statusMessage := UploadingMsg) &&
      UploadRequestFor(s).value == UploadRequest(s.selectedFile.value, UserId)
    ensures StartRequestFor(s).Some? ==>
      BeginStart(s) == s.(loading := true, statusMessage := StartingMsg)
    ensures StatusRequestFor(s).Some? ==>
      BeginStatus(s) == s.(loading := true, statusMessage := CheckingMsg) &&
      StatusRequestFor(s).value == s.analysisId.s
  {
  }

  /** Every settle clears `loading`, on success and on failure alike. */
  lemma SettleLowersLoading(s: UiState, up: Outcome<UploadReply>, st: Outcome<StartReply>, ch: Outcome<StatusReply>)
    ensures !SettleUpload(s, up).loading && !SettleStart(s, st).loading && !SettleStatus(s, ch).loading
  {
  }

  /** A failed request keeps the path, the id and the results, and sets its stage's failure message. */
  lemma FailureKeepsData(s: UiState)
    ensures SettleUpload(s, Fail) == s.(statusMessage := UploadFailedMsg, loading := false)
    ensures SettleStart(s, Fail) == s.(statusMessage := StartFailedMsg, loading := false)
    ensures SettleStatus(s, Fail) == s.(statusMessage := CheckFailedMsg, loading := false)
  {
  }

  /**
   * A successful request changes only its own field, the message and `loading`:
   * a new upload keeps the earlier analysis id and results.
   */
  lemma SuccessChangesOnlyItsField(s: UiState, up: UploadReply, st: StartReply, ch: StatusReply)
    ensures SettleUpload(s, Ok(up)) ==
      s.(storagePath := up.storagePath, statusMessage := SuccessMsg(up.message), loading := false)
    ensures SettleStart(s, Ok(st)) ==
      s.(analysisId := st.analysisId, statusMessage := SuccessMsg(st.message), loading := false)
    ensures SettleStatus(s, Ok(ch)) ==
      s.(analysisResults := Some(ch), statusMessage := SuccessMsg(ch.message), loading := false)
    ensures SettleUpload(s, Ok(up)).analysisId == s.analysisId
    ensures SettleUpload(s, Ok(up)).analysisResults == s.analysisResults
  {
  }

  /** Any successful status reply is stored; the results section then appears exactly when it is "completed". */
  lemma StatusReplyStoredWhateverItsStatus(s: UiState, reply: StatusReply)
    ensures var t := SettleStatus(s, Ok(reply));
      t.analysisResults == Some(reply) && ResetShown(t) &&
      (ResultsShown(t) <==> reply.status == Text(Completed))
  {
  }

  /** After any handler, picking a file, reset, a guard, a begin or a settle, the status line is rendered. */
  lemma EveryHandlerShowsAMessage(s: UiState, file: Option<LocalFile>,
                                  up: Outcome<UploadReply>, st: Outcome<StartReply>, ch: Outcome<StatusReply>)
    ensures MessageShown(SelectFile(s, file)) && MessageShown(Reset(s))
    ensures MessageShown(BeginUpload(s)) && MessageShown(BeginStart(s)) && MessageShown(BeginStatus(s))
    ensures MessageShown(SettleUpload(s, up)) && MessageShown(SettleStart(s, st)) && MessageShown(SettleStatus(s, ch))
  {
  }

  /** Checking the status again and getting the same reply leaves the state exactly as the first check did. */
  lemma RepeatedStatusCheckIsStable(s: UiState, reply: StatusReply)
    requires StatusRequestFor(s).Some?
    ensures var once := SettleStatus(BeginStatus(s), Ok(reply));
      StatusRequestFor(once) == StatusRequestFor(s) &&
      SettleStatus(BeginStatus(once), Ok(reply)) == once
  {
  }

  /** The file id is present exactly when the path has at least two slashes. */
  lemma FileIdPresence(path: string)
    ensures FileIdOf(path).Text? <==> JsText.Occurrences(path, '/') >= 2
  {
    JsText.SplitCount(path, '/');
  }

  /** For a path built from slash-free segments, the file id is the third segment. */
  lemma FileIdOfJoin(segments: seq<string>)
    requires |segments| >= 3
    requires forall i :: 0 <= i < |segments| ==> '/' !in segments[i]
    ensures FileIdOf(JsText.Join(segments, '/')) == Text(segments[2])
  {
    JsText.SplitJoin(segments, '/');
  }

  /** The start request always carries the stored path unchanged and the file id derived from it. */
  lemma StartRequestCarriesPath(s: UiState)
    ensures StartRequestFor(s).Some? <==> Truthy(s.storagePath)
    ensures StartRequestFor(s).Some? ==>
      var req := StartRequestFor(s).value;
      req.filePath == s.storagePath.s && req.userId == UserId &&
      (req.fileId.Text? <==> JsText.Occurrences(s.storagePath.s, '/') >= 2)
  {
    if Truthy(s.storagePath) {
      FileIdPresence(s.storagePath.s);
    }
  }

  /** The path "uploads/abc/file-42" yields file id "file-42", and the start request carries both. */
  lemma ExampleFileId(s: UiState)
    requires s.storagePath == Text("uploads/abc/file-42")
    ensures FileIdOf("uploads/abc/file-42") == Text("file-42")
    ensures StartRequestFor(s) == Some(StartRequest(Text("file-42"), UserId, "uploads/abc/file-42"))
  {
    var segments := ["uploads", "abc", "file-42"];
    assert JsText.Join(segments[2..], '/') == "file-42";
    assert JsText.Join(segments[1..], '/') == "abc/file-42";
    assert JsText.Join(segments, '/') == "uploads/abc/file-42";
    FileIdOfJoin(segments);
  }
}
