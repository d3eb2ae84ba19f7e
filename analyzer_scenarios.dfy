/**
 * Event sequences on a fresh analyzer component, with what the code as
 * written makes of them: an upload analysed end to end against the server,
 * a refused camera, overlapping automatic analyses, a reply that arrives
 * after the user left real-time mode, a camera switched twice, and a
 * double start.
 */
module AnalyzerScenarios {
  import opened Options
  import Server = BodyShapeServer
  import opened ShapeAnalyzer

  /**
   * Upload a file, press "Analyze Image" and let the server answer: the
   * results panel is rendered exactly on a 200 reply and shows the server's
   * analysis, with a known label, or the error message is exactly the
   * failing stage's.
   */
  method UploadAndAnalyze(file: ImageFile, dataUrl: string,
                          processImage: string -> Server.ProcessResult,
                          estimateMeasurements: (Server.Landmarks, int, int) -> Server.MeasureResult,
                          elapsed: real)
    returns (sent: AnalysisRequest, results: Option<Server.Body>, error: Option<string>, loading: bool,
             shown: bool)
    requires dataUrl != ""
    ensures sent == AnalysisRequest(Some(dataUrl))
    ensures !loading
    ensures var reply := Server.Analyze(Some(map["image" := dataUrl]), processImage, estimateMeasurements, elapsed);
            && (shown <==> reply.status == Server.Ok)
            && (reply.status == Server.Ok ==>
                  && results == Some(reply.body) && error == None
                  && ShapeDescription(reply.body.bodyShape) != DefaultDescription)
            && (reply.status == Server.BadRequest ==>
                  && results == None
                  && error == Some(if reply.body.error != "" then reply.body.error else AnalysisFailedMessage))
  {
    var page := new DetectShape();
    page.HandleImageUpload(Some(file), Some(dataUrl));
    sent := page.AnalyzeUpload();
    var reply := Server.Analyze(Some(map["image" := dataUrl]), processImage, estimateMeasurements, elapsed);
    page.CompleteAnalysis(Responded(reply));
    results, error, loading, shown := page.results, page.error, page.loading, page.ShowsResults();
  }

  /**
   * Real-time mode, press Start, the camera is refused: the error names the
   * refusal, no stream is attached, and yet isLive ends true, because the
   * toggle's final write overrides the catch block's reset.
   */
  method RefusedCameraStart(message: string)
    returns (isLive: bool, error: Option<string>, attached: Option<MediaStream>, remembered: Option<MediaStream>)
    ensures isLive
    ensures error == Some(CameraDeniedPrefix + message)
    ensures attached == None && remembered == None
  {
    var page := new DetectShape();
    page.SwitchMode(Realtime);
    var request := page.BeginToggleCamera();
    page.CompleteToggleCamera(Denied(message));
    isLive, error, attached, remembered := page.isLive, page.error, page.videoSource, page.stream;
  }

  /** The same events with the corrected toggle: the page is not live. */
  method RefusedCameraStartChecked(message: string)
    returns (isLive: bool, error: Option<string>, attached: Option<MediaStream>)
    ensures !isLive
    ensures error == Some(CameraDeniedPrefix + message)
    ensures attached == None
  {
    var page := new DetectShape();
    page.SwitchMode(Realtime);
    var request := page.BeginToggleCamera();
    page.CompleteToggleCameraChecked(Denied(message));
    isLive, error, attached := page.isLive, page.error, page.videoSource;
  }

  /**
   * Two interval ticks before the first reply: both send a request, and the
   * first reply clears loading although the second is still outstanding.
   */
  method OverlappingTicks(first: string, second: string, reply: HttpOutcome)
    returns (sentFirst: Option<AnalysisRequest>, sentSecond: Option<AnalysisRequest>, loadingAfterReply: bool)
    ensures sentFirst == Some(AnalysisRequest(Some(first)))
    ensures sentSecond == Some(AnalysisRequest(Some(second)))
    ensures !loadingAfterReply
  {
    var page := new DetectShape();
    page.SwitchMode(Realtime);
    var cam := new MediaStream(1);
    var request := page.BeginToggleCamera();
    page.CompleteToggleCamera(Granted(cam));
    sentFirst := page.AutoAnalysisTick(first);
    sentSecond := page.AutoAnalysisTick(second);
    page.CompleteAnalysis(reply);
    loadingAfterReply := page.loading;
  }

  /**
   * An analysis started in real-time mode whose reply arrives after the user
   * switched to upload mode is still applied: nothing marks it stale.
   */
  method LateReplyApplied(pixels: string, reply: Server.Response)
    returns (mode: Mode, results: Option<Server.Body>, error: Option<string>)
    requires 200 <= reply.status < 300
    ensures mode == Upload
    ensures results == Some(reply.body) && error == None
  {
    var page := new DetectShape();
    page.SwitchMode(Realtime);
    var cam := new MediaStream(1);
    var request := page.BeginToggleCamera();
    page.CompleteToggleCamera(Granted(cam));
    var sent := page.AnalyzeNow(pixels);
    page.SwitchMode(Upload);
    page.CompleteAnalysis(Responded(reply));
    mode, results, error := page.mode, page.results, page.error;
  }

  /**
   * Switching the camera twice while live: each switch stops the current
   * stream and asks for the other facing, and the second switch restores the
   * original facing.
   */
  method SwitchCameraTwice()
    returns (firstRestart: Option<CameraRequest>, secondRestart: Option<CameraRequest>,
             facing: Facing, firstEnded: bool, secondEnded: bool, live: bool)
    ensures firstRestart == Some(StartRequest(Environment))
    ensures secondRestart == Some(StartRequest(User))
    ensures facing == User
    ensures firstEnded && secondEnded && live
  {
    var page := new DetectShape();
    page.SwitchMode(Realtime);
    var front := new MediaStream(1);
    var request := page.BeginToggleCamera();
    page.CompleteToggleCamera(Granted(front));
    page.SwitchCamera();
    firstRestart := page.RestartOnFacingChange();
    var rear := new MediaStream(1);
    page.CompleteStartCamera(Granted(rear));
    page.SwitchCamera();
    secondRestart := page.RestartOnFacingChange();
    facing := page.facingMode;
    firstEnded := AllEnded(front);
    secondEnded := AllEnded(rear);
    live := page.isLive;
  }

  /**
   * Stop the camera, then leave the page: the stream is still remembered, so
   * the unmount cleanup stops its tracks a second time, which leaves them
   * ended.
   */
  method StopThenUnmount()
    returns (remembered: bool, endedAfterStop: bool, endedAfterUnmount: bool, live: bool)
    ensures remembered && endedAfterStop && endedAfterUnmount && !live
  {
    var page := new DetectShape();
    page.SwitchMode(Realtime);
    var cam := new MediaStream(2);
    var request := page.BeginToggleCamera();
    page.CompleteToggleCamera(Granted(cam));
    request := page.BeginToggleCamera();
    endedAfterStop := AllEnded(cam);
    page.Unmount();
    remembered := page.stream == Some(cam);
    endedAfterUnmount := AllEnded(cam);
    live := page.isLive;
  }

  /**
   * Pressing Start twice before the camera answers: both requests are
   * granted, the second stream replaces the first, and the first stream's
   * track stays live with nothing left that could stop it.
   */
  method DoubleStart()
    returns (firstForgotten: bool, firstStillLive: bool, live: bool)
    ensures firstForgotten && firstStillLive && live
  {
    var page := new DetectShape();
    page.SwitchMode(Realtime);
    var one := page.BeginToggleCamera();
    var two := page.BeginToggleCamera();
    var first := new MediaStream(1);
    var second := new MediaStream(1);
    page.CompleteToggleCamera(Granted(first));
    page.CompleteToggleCamera(Granted(second));
    firstForgotten := page.stream == Some(second) && page.videoSource == Some(second);
    firstStillLive := first.tracks[0] == Live;
    live := page.isLive;
  }
}
