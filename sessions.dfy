/**
 * Sessions: what the page lets a user do, one event at a time. A button
 * can be clicked only while it is rendered and enabled, the file input is
 * always available, and a request settles only while it is in flight.
 * Within this model the buttons' `disabled` attributes keep requests from
 * overlapping; the file input and the reset button, which are never
 * disabled, let the dependency chain between the cells break.
 */
module Sessions {
  import opened Wrappers
  import opened Payloads
  import opened Presenter
  import opened Workflow

  /** The request a session is waiting for. */
  datatype Stage = UploadStage | StartStage | StatusStage

  /** The component's state and the request in flight, if any. */
  datatype Session = Session(ui: UiState, inFlight: Option<Stage>)

  const Start := Session(Initial, None)

  /** A user event, or the settling of the request in flight. */
  datatype Event =
    | PickFile(file: Option<LocalFile>)
    | ClickUpload
    | ClickStart
    | ClickStatus
    | ClickReset
    | ClickTab(tab: Tab)
    | UploadSettles(upload: Outcome<UploadReply>)
    | StartSettles(start: Outcome<StartReply>)
    | StatusSettles(status: Outcome<StatusReply>)

  /** The effect of one event, or `None` when the page does not allow it in this state. */
  function Step(s: Session, e: Event): Option<Session>
  {
    match e
    case PickFile(file) => Some(Session(SelectFile(s.ui, file), s.inFlight))
    case ClickUpload =>
      if UploadEnabled(s.ui) then Some(Session(BeginUpload(s.ui), Some(UploadStage))) else None
    case ClickStart =>
      if StartEnabled(s.ui) then Some(Session(BeginStart(s.ui), Some(StartStage))) else None
    case ClickStatus =>
      if StatusEnabled(s.ui) then Some(Session(BeginStatus(s.ui), Some(StatusStage))) else None
    case ClickReset =>
      if ResetShown(s.ui) then Some(Session(Reset(s.ui), s.inFlight)) else None
    case ClickTab(tab) =>
      if ResultsShown(s.ui) then Some(Session(SelectTab(s.ui, tab), s.inFlight)) else None
    case UploadSettles(outcome) =>
      if s.inFlight == Some(UploadStage) then Some(Session(SettleUpload(s.ui, outcome), None)) else None
    case StartSettles(outcome) =>
      if s.inFlight == Some(StartStage) then Some(Session(SettleStart(s.ui, outcome), None)) else None
    case StatusSettles(outcome) =>
      if s.inFlight == Some(StatusStage) then Some(Session(SettleStatus(s.ui, outcome), None)) else None
  }

  /** A user who waits for each request to settle before picking a file or resetting. */
  predicate Waits(s: Session, e: Event)
  {
    s.inFlight.Some? ==> !e.PickFile? && !e.ClickReset?
  }

  /**
   * The events of `trace` applied in order; `None` as soon as one is not
   * allowed. With `patient`, picking a file or resetting during a request is
   * not allowed either.
   */
  function Run(s: Session, trace: seq<Event>, patient: bool): Option<Session>
    decreases |trace|
  {
    if trace == [] then Some(s)
    else if patient && !Waits(s, trace[0]) then None
    else match Step(s, trace[0])
      case None => None
      case Some(t) => Run(t, trace[1..], patient)
  }

  /** `loading` is set exactly while a request is in flight. */
  predicate LoadingTracksFlight(s: Session)
  {
    s.ui.loading <==> s.inFlight.Some?
  }

  /** Every cell downstream of the selected file is cleared while no file is selected. */
  predicate ChainIntact(ui: UiState)
  {
    ui.selectedFile.None? ==> ui.storagePath == Null && ui.analysisId == Null && ui.analysisResults == None
  }

  /** What a patient session keeps: the loading flag tracks the request, the chain is intact, a request needs a file. */
  predicate PatientInvariant(s: Session)
  {
    LoadingTracksFlight(s) && ChainIntact(s.ui) && (s.inFlight.Some? ==> s.ui.selectedFile.Some?)
  }

  /** One allowed event keeps `loading` in step with the request in flight. */
  lemma StepKeepsLoadingTracksFlight(s: Session, e: Event)
    requires LoadingTracksFlight(s)
    requires Step(s, e).Some?
    ensures LoadingTracksFlight(Step(s, e).value)
  {
  }

  /** Any sequence of allowed events keeps `loading` in step with the request in flight. */
  lemma {:induction false} RunKeepsLoadingTracksFlight(s: Session, trace: seq<Event>, patient: bool)
    requires LoadingTracksFlight(s)
    requires Run(s, trace, patient).Some?
    ensures LoadingTracksFlight(Run(s, trace, patient).value)
    decreases |trace|
  {
    if trace != [] {
      var t := Step(s, trace[0]).value;
      StepKeepsLoadingTracksFlight(s, trace[0]);
      RunKeepsLoadingTracksFlight(t, trace[1..], patient);
    }
  }

  /**
   * In every session the page allows, a request starts only when none is in
   * flight, and `loading` is set after any click that sends one.
   */
  lemma NoOverlappingRequests(trace: seq<Event>, e: Event)
    requires Run(Start, trace, false).Some?
    requires e.ClickUpload? || e.ClickStart? || e.ClickStatus?
    requires Step(Run(Start, trace, false).value, e).Some?
    ensures Run(Start, trace, false).value.inFlight.None?
    ensures Step(Run(Start, trace, false).value, e).value.ui.loading
  {
    RunKeepsLoadingTracksFlight(Start, trace, false);
  }

  /** One patient event keeps the patient invariant. */
  lemma StepKeepsPatientInvariant(s: Session, e: Event)
    requires PatientInvariant(s)
    requires Waits(s, e)
    requires Step(s, e).Some?
    ensures PatientInvariant(Step(s, e).value)
  {
  }

  /** A patient run keeps the patient invariant. */
  lemma {:induction false} PatientRunKeepsInvariant(s: Session, trace: seq<Event>)
    requires PatientInvariant(s)
    requires Run(s, trace, true).Some?
    ensures PatientInvariant(Run(s, trace, true).value)
    decreases |trace|
  {
    if trace != [] {
      var t := Step(s, trace[0]).value;
      StepKeepsPatientInvariant(s, trace[0]);
      PatientRunKeepsInvariant(t, trace[1..]);
    }
  }

  /** A patient user never sees a stored path, an analysis id or results without a selected file. */
  lemma PatientSessionsKeepTheChain(trace: seq<Event>)
    requires Run(Start, trace, true).Some?
    ensures var ui := Run(Start, trace, true).value.ui;
      ui.selectedFile.None? ==> !Truthy(ui.storagePath) && !Truthy(ui.analysisId) && ui.analysisResults == None
  {
    PatientRunKeepsInvariant(Start, trace);
  }

  /**
   * An impatient user breaks the chain: cancelling the file dialog while the
   * upload is in flight, then the upload's success, leaves a stored path, and
   * an enabled start button, with no file selected.
   */
  lemma StaleUploadOutlivesFileChange(f: LocalFile, path: string, message: Field)
    requires path != ""
    ensures var trace := [PickFile(Some(f)), ClickUpload, PickFile(None),
                          UploadSettles(Ok(UploadReply(Text(path), message)))];
      Run(Start, trace, false).Some? &&
      var ui := Run(Start, trace, false).value.ui;
      ui.selectedFile == None && ui.storagePath == Text(path) && StartEnabled(ui) && !ChainIntact(ui)
  {
    var reply := UploadReply(Text(path), message);
    var s1 := Step(Start, PickFile(Some(f))).value;
    var s2 := Step(s1, ClickUpload).value;
    var s3 := Step(s2, PickFile(None)).value;
    var s4 := Step(s3, UploadSettles(Ok(reply))).value;
    var trace := [PickFile(Some(f)), ClickUpload, PickFile(None), UploadSettles(Ok(reply))];
    assert Run(s4, trace[4..], false) == Some(s4);
    assert Run(s3, trace[3..], false) == Some(s4);
    assert Run(s2, trace[2..], false) == Some(s4);
    assert Run(s1, trace[1..], false) == Some(s4);
  }

  /** A successful upload stores the path and its message; the start request then carries file id "file-42". */
  lemma UploadScenario(f: LocalFile)
    ensures var trace := [PickFile(Some(f)), ClickUpload,
                          UploadSettles(Ok(UploadReply(Text("uploads/abc/file-42"), Text("stored"))))];
      Run(Start, trace, true).Some? &&
      var ui := Run(Start, trace, true).value.ui;
      ui.storagePath == Text("uploads/abc/file-42") && ui.statusMessage == "✅ stored" && StartEnabled(ui) &&
      StartRequestFor(ui) == Some(StartRequest(Text("file-42"), UserId, "uploads/abc/file-42"))
  {
    var trace := [PickFile(Some(f)), ClickUpload,
                  UploadSettles(Ok(UploadReply(Text("uploads/abc/file-42"), Text("stored"))))];
    var s1 := Step(Start, trace[0]).value;
    var s2 := Step(s1, trace[1]).value;
    var s3 := Step(s2, trace[2]).value;
    assert Run(s3, trace[3..], true) == Some(s3);
    assert Run(s2, trace[2..], true) == Some(s3);
    assert Run(s1, trace[1..], true) == Some(s3);
    assert s3.ui.storagePath == Text("uploads/abc/file-42");
    assert s3.ui.statusMessage == SuccessMsg(Text("stored")) == "✅ stored";
    ExampleFileId(s3.ui);
  }

  /** Starting the analysis of that path sends file id "file-42" and stores the returned analysis id. */
  lemma StartScenario(s: Session)
    requires s.inFlight.None? && !s.ui.loading && s.ui.storagePath == Text("uploads/abc/file-42")
    ensures var trace := [ClickStart, StartSettles(Ok(StartReply(Text("job-7"), Text("started"))))];
      Run(s, trace, true).Some? &&
      var ui := Run(s, trace, true).value.ui;
      ui.analysisId == Text("job-7") && ui.storagePath == s.ui.storagePath && StatusEnabled(ui)
    ensures StartRequestFor(s.ui).Some? && StartRequestFor(s.ui).value.fileId == Text("file-42")
  {
    var trace := [ClickStart, StartSettles(Ok(StartReply(Text("job-7"), Text("started"))))];
    var s1 := Step(s, trace[0]).value;
    var s2 := Step(s1, trace[1]).value;
    assert Run(s2, trace[2..], true) == Some(s2);
    assert Run(s1, trace[1..], true) == Some(s2);
    ExampleFileId(s.ui);
  }

  /** A status reply that is still "running" is stored and shows the reset button, but no results. */
  lemma RunningScenario(s: Session)
    requires s.inFlight.None? && !s.ui.loading && Truthy(s.ui.analysisId)
    ensures var running := StatusReply(Text("running"), Text("in progress"), None);
      var trace := [ClickStatus, StatusSettles(Ok(running))];
      Run(s, trace, true).Some? &&
      var ui := Run(s, trace, true).value.ui;
      ui.analysisResults == Some(running) && ResetShown(ui) && !ResultsShown(ui) && Results(ui) == Hidden
  {
    var running := StatusReply(Text("running"), Text("in progress"), None);
    var trace := [ClickStatus, StatusSettles(Ok(running))];
    var s1 := Step(s, trace[0]).value;
    var s2 := Step(s1, trace[1]).value;
    assert Run(s2, trace[2..], true) == Some(s2);
    assert Run(s1, trace[1..], true) == Some(s2);
  }

  /** A failed upload stores no path and keeps the start button disabled. */
  lemma FailedUploadScenario(f: LocalFile)
    ensures var trace := [PickFile(Some(f)), ClickUpload, UploadSettles(Fail)];
      Run(Start, trace, true).Some? &&
      var ui := Run(Start, trace, true).value.ui;
      ui.storagePath == Null && ui.statusMessage == UploadFailedMsg && !StartEnabled(ui) && UploadEnabled(ui)
  {
    var trace := [PickFile(Some(f)), ClickUpload, UploadSettles(Fail)];
    var s1 := Step(Start, trace[0]).value;
    var s2 := Step(s1, trace[1]).value;
    var s3 := Step(s2, trace[2]).value;
    assert Run(s3, trace[3..], true) == Some(s3);
    assert Run(s2, trace[2..], true) == Some(s3);
    assert Run(s1, trace[1..], true) == Some(s3);
  }

  /** A completed reply with score 0.95 shows the overview with a green quality bar. */
  lemma CompletedScenario(s: Session, r: AnalysisResult)
    requires s.inFlight.None? && !s.ui.loading && Truthy(s.ui.analysisId) && s.ui.activeTab == Overview
    requires r.dataQualityScore == 0.95 && r.ddlMetadata.Some?
    ensures var reply := StatusReply(Text(Completed), Text("done"), Some(r));
      Run(s, [ClickStatus, StatusSettles(Ok(reply))], true).Some? &&
      var ui := Run(s, [ClickStatus, StatusSettles(Ok(reply))], true).value.ui;
      ResultsShown(ui) && Results(ui).Shown? && Results(ui).sections[0] == QualityScore(0.95, Green)
  {
    var reply := StatusReply(Text(Completed), Text("done"), Some(r));
    var trace := [ClickStatus, StatusSettles(Ok(reply))];
    var s1 := Step(s, trace[0]).value;
    var s2 := Step(s1, trace[1]).value;
    assert Run(s2, trace[2..], true) == Some(s2);
    assert Run(s1, trace[1..], true) == Some(s2);
  }
}
