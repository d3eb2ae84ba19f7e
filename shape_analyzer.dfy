/**
 * The body-shape analyzer page: a component whose handlers update its state
 * one field at a time, a camera stream whose tracks are stopped in a loop, and
 * two lookup tables that decorate the server's label.
 *
 * Each `await` is split in two: a Begin/handler method that runs up to the
 * call and returns the request that is now outstanding, and a Complete method
 * that runs the continuation with the outcome (camera granted or denied, HTTP
 * response or none) passed in. Nothing ties a completion to a request: the
 * component has no generation counter, so a completion is applied to whatever
 * the state is when it arrives.
 */
module ShapeAnalyzer {
  import opened Options
  import Server = BodyShapeServer

  datatype Mode = Upload | Realtime

  /** 'user' (front camera) or 'environment' (rear camera). */
  datatype Facing = User | Environment

  function Flip(f: Facing): (g: Facing)
    ensures g != f
  {
    if f == User then Environment else User
  }

  datatype TrackState = Live | Ended

  /** A media stream handed out by the browser; `track.stop()` ends a track in place. */
  class MediaStream {
    const tracks: array<TrackState>

    constructor (trackCount: nat)
      ensures fresh(tracks) && tracks.Length == trackCount
      ensures forall i :: 0 <= i < trackCount ==> tracks[i] == Live
    {
      tracks := new TrackState[trackCount](_ => Live);
    }
  }

  predicate AllEnded(s: MediaStream)
    reads s.tracks
  {
    forall i :: 0 <= i < s.tracks.Length ==> s.tracks[i] == Ended
  }

  /** The `getUserMedia` constraints: facing preference, ideal resolution, no audio. */
  datatype CameraRequest = CameraRequest(facing: Facing, idealWidth: nat, idealHeight: nat, audio: bool)

  const IdealWidth: nat := 1280
  const IdealHeight: nat := 720

  function StartRequest(facing: Facing): (r: CameraRequest)
    ensures r.facing == facing && !r.audio
    ensures r.idealWidth == IdealWidth && r.idealHeight == IdealHeight
  {
    CameraRequest(facing, IdealWidth, IdealHeight, false)
  }

  /** How `getUserMedia` settles: a stream, or a rejection with its message. */
  datatype CameraOutcome = Granted(stream: MediaStream) | Denied(message: string)

  const CameraDeniedPrefix: string := "Camera access denied: "

  /**
   * The TypeError message (in Chromium's wording) raised when a stream arrives
   * after the video element is gone and `srcObject` is assigned on null.
   */
  const NullVideoMessage: string := "Cannot set properties of null (setting 'srcObject')"

  /** The body of the POST to /analyze: `{image: imageData}`. */
  datatype AnalysisRequest = AnalysisRequest(image: Option<string>)

  /** How the POST settles: an HTTP response, or none at all (network failure). */
  datatype HttpOutcome = Responded(response: Server.Response) | NoResponse

  const AnalysisFailedMessage: string := "Analysis failed. Please try again."

  /** axios resolves on a 2xx status and rejects otherwise. */
  predicate Succeeded(outcome: HttpOutcome)
  {
    outcome.Responded? && 200 <= outcome.response.status < 300
  }

  /** The failed request's reply carries a non-empty `error` field. */
  predicate CarriesError(outcome: HttpOutcome)
  {
    outcome.Responded? && outcome.response.body.ErrorBody? && outcome.response.body.error != ""
  }

  /** `err.response?.data?.error || "Analysis failed. Please try again."`. */
  function AnalysisErrorText(outcome: HttpOutcome): (text: string)
    ensures text != ""
    ensures CarriesError(outcome) ==> text == outcome.response.body.error
    ensures !CarriesError(outcome) ==> text == AnalysisFailedMessage
  {
    if CarriesError(outcome) then outcome.response.body.error
    else AnalysisFailedMessage
  }

  /** A file chosen in the upload input. */
  datatype ImageFile = ImageFile(name: string)

  class DetectShape {
    var mode: Mode
    var image: Option<string>
    var results: Option<Server.Body>
    var loading: bool
    var error: Option<string>
    var isLive: bool
    var facingMode: Facing
    /** `streamRef.current`: set by a successful start, never cleared. */
    var stream: Option<MediaStream>
    /** `videoRef.current.srcObject`; the video element is mounted only in real-time mode. */
    var videoSource: Option<MediaStream>

    ghost predicate Valid()
      reads this
    {
      && (mode == Upload ==> videoSource == None)
      && (videoSource.Some? ==> stream == videoSource)
    }

    /** The track array of the remembered stream, which the stop loop writes. */
    function Tracks(): set<object>
      reads this
    {
      if stream.Some? then {stream.value.tracks} else {}
    }

    /** The interval that drives automatic analysis exists exactly while this holds. */
    predicate AutoAnalysisRunning()
      reads this
    {
      isLive && mode == Realtime
    }

    /** `captureFrame`: null without a video element, else the canvas's JPEG data URL. */
    function CaptureFrame(pixels: string): (frame: Option<string>)
      reads this
      ensures frame.Some? <==> mode == Realtime
      ensures frame.Some? ==> frame.value == pixels
    {
      if mode == Realtime then Some(pixels) else None
    }

    /** `results && !results.error`: the results panel is rendered. */
    predicate ShowsResults()
      reads this
      ensures ShowsResults() ==> results.Some?
      ensures results.Some? && results.value.AnalysisBody? ==> ShowsResults()
    {
      results.Some? && !(results.value.ErrorBody? && results.value.error != "")
    }

    /** The upload "Analyze Image" button is enabled. */
    predicate CanAnalyzeUpload()
      reads this
    {
      mode == Upload && image.Some? && image.value != "" && !loading
    }

    /** The real-time "Analyze Now" button is rendered and enabled. */
    predicate CanAnalyzeNow()
      reads this
    {
      mode == Realtime && isLive && !loading
    }

    constructor ()
      ensures Valid()
      ensures mode == Upload && image == None && results == None && !loading && error == None
      ensures !isLive && facingMode == User && stream == None && videoSource == None
    {
      mode, image, results, loading, error := Upload, None, None, false, None;
      isLive, facingMode, stream, videoSource := false, User, None, None;
    }

    /**
     * `stopCamera`: with no remembered stream nothing happens; otherwise every
     * track is stopped and the video is detached. The stream stays remembered.
     */
    method StopCamera()
      requires Valid()
      modifies this`videoSource, Tracks()
      ensures Valid()
      ensures old(stream).None? ==> videoSource == old(videoSource)
      ensures old(stream).Some? ==> videoSource == None && AllEnded(old(stream).value)
    {
      if stream.Some? {
        var tracks := stream.value.tracks;
        var i := 0;
        while i < tracks.Length
          invariant 0 <= i <= tracks.Length
          invariant forall k :: 0 <= k < i ==> tracks[k] == Ended
        {
          tracks[i] := Ended;
          i := i + 1;
        }
        videoSource := None;
      }
    }

    /**
     * `switchMode`: choosing the current mode does nothing. Otherwise the
     * camera is stopped (and isLive cleared) only when leaving real-time mode
     * while live, and the image, results and error are cleared.
     */
    method SwitchMode(newMode: Mode)
      requires Valid()
      modifies this, Tracks()
      ensures Valid()
      ensures newMode == old(mode) ==> unchanged(this)
      ensures newMode != old(mode) ==>
                && mode == newMode && image == None && results == None && error == None
                && loading == old(loading) && facingMode == old(facingMode) && stream == old(stream)
                && videoSource == None
                && isLive == (old(isLive) && old(mode) != Realtime)
      ensures (old(stream).Some? && newMode != old(mode) && old(mode) == Realtime && old(isLive))
                ==> AllEnded(old(stream).value)
      ensures (old(stream).Some? && !(newMode != old(mode) && old(mode) == Realtime && old(isLive)))
                ==> unchanged(old(stream).value.tracks)
    {
      if newMode == mode {
        return;
      }
      if mode == Realtime && isLive {
        StopCamera();
        isLive := false;
      }
      mode := newMode;
      image := None;
      results := None;
      error := None;
      // Leaving real-time mode unmounts the video element, and entering it
      // mounts a fresh one with no source.
      videoSource := None;
    }

    /**
     * `toggleCamera` up to its `await`: when live, the camera is stopped and
     * isLive becomes false at once; otherwise nothing changes yet and
     * `getUserMedia` is called with the current facing.
     */
    method BeginToggleCamera() returns (request: Option<CameraRequest>)
      requires Valid() && mode == Realtime
      modifies this, Tracks()
      ensures Valid()
      ensures old(isLive) ==>
                && request == None && !isLive
                && mode == old(mode) && image == old(image) && results == old(results)
                && loading == old(loading) && error == old(error) && facingMode == old(facingMode)
                && stream == old(stream)
                && (old(stream).Some? ==> videoSource == None && AllEnded(old(stream).value))
                && (old(stream).None? ==> videoSource == old(videoSource))
      ensures !old(isLive) ==>
                && request == Some(StartRequest(facingMode))
                && unchanged(this)
                && (old(stream).Some? ==> unchanged(old(stream).value.tracks))
    {
      if isLive {
        StopCamera();
        isLive := false;
        request := None;
      } else {
        request := Some(StartRequest(facingMode));
      }
    }

    /**
     * The continuation of `startCamera`. A granted stream is attached to the
     * video and remembered, provided the video element still exists; if it
     * does not (the user left real-time mode meanwhile), the assignment throws
     * and lands in the same catch as a refused camera. The catch reports
     * "Camera access denied: " with the message and clears isLive.
     */
    method CompleteStartCamera(outcome: CameraOutcome)
      requires Valid()
      modifies this`stream, this`videoSource, this`error, this`isLive
      ensures Valid()
      ensures outcome.Granted? && mode == Realtime ==>
                && stream == Some(outcome.stream) && videoSource == Some(outcome.stream)
                && error == old(error) && isLive == old(isLive)
      ensures outcome.Granted? && mode == Upload ==>
                && stream == old(stream) && videoSource == old(videoSource)
                && error == Some(CameraDeniedPrefix + NullVideoMessage) && !isLive
      ensures outcome.Denied? ==>
                && stream == old(stream) && videoSource == old(videoSource)
                && error == Some(CameraDeniedPrefix + outcome.message) && !isLive
    {
      match outcome
      case Granted(s) =>
        if mode == Realtime {
          videoSource := Some(s);
          stream := Some(s);
        } else {
          error := Some(CameraDeniedPrefix + NullVideoMessage);
          isLive := false;
        }
      case Denied(message) =>
        error := Some(CameraDeniedPrefix + message);
        isLive := false;
    }

    /**
     * The rest of `toggleCamera` after `await startCamera()`: its last write
     * sets isLive to the negation of the value read on entry, which was false
     * on this path, so isLive ends true even when the start failed.
     */
    method CompleteToggleCamera(outcome: CameraOutcome)
      requires Valid()
      modifies this`stream, this`videoSource, this`error, this`isLive
      ensures Valid()
      ensures isLive
      ensures outcome.Granted? && mode == Realtime ==>
                && stream == Some(outcome.stream) && videoSource == Some(outcome.stream)
                && error == old(error)
      ensures outcome.Granted? && mode == Upload ==>
                && stream == old(stream) && videoSource == old(videoSource)
                && error == Some(CameraDeniedPrefix + NullVideoMessage)
      ensures outcome.Denied? ==>
                && stream == old(stream) && videoSource == old(videoSource)
                && error == Some(CameraDeniedPrefix + outcome.message)
    {
      CompleteStartCamera(outcome);
      isLive := true;
    }

    /**
     * The evidently intended end of `toggleCamera`: isLive becomes true only
     * when the camera actually started, so it is never set without a stream
     * attached to the video.
     */
    method CompleteToggleCameraChecked(outcome: CameraOutcome)
      requires Valid()
      modifies this`stream, this`videoSource, this`error, this`isLive
      ensures Valid()
      ensures isLive <==> outcome.Granted? && mode == Realtime
      ensures isLive ==> videoSource.Some? && stream == videoSource
      ensures outcome.Granted? && mode == Realtime ==>
                stream == Some(outcome.stream) && error == old(error)
      ensures outcome.Granted? && mode == Upload ==>
                stream == old(stream) && error == Some(CameraDeniedPrefix + NullVideoMessage)
      ensures outcome.Denied? ==>
                stream == old(stream) && error == Some(CameraDeniedPrefix + outcome.message)
    {
      CompleteStartCamera(outcome);
      if outcome.Granted? && mode == Realtime {
        isLive := true;
      }
    }

    /** `switchCamera`: the Switch button exists only while live in real-time mode. */
    method SwitchCamera()
      requires mode == Realtime && isLive
      modifies this`facingMode
      ensures facingMode == Flip(old(facingMode))
      ensures Flip(facingMode) == old(facingMode)
    {
      facingMode := Flip(facingMode);
    }

    /**
     * The effect that runs after facingMode changes: when live, stop the
     * camera and start it again with the new facing (the restart is not
     * awaited; its continuation is CompleteStartCamera).
     */
    method RestartOnFacingChange() returns (request: Option<CameraRequest>)
      requires Valid()
      modifies this`videoSource, Tracks()
      ensures Valid()
      ensures isLive ==>
                && request == Some(StartRequest(facingMode))
                && (old(stream).Some? ==> videoSource == None && AllEnded(old(stream).value))
                && (old(stream).None? ==> videoSource == old(videoSource))
      ensures !isLive ==>
                && request == None && videoSource == old(videoSource)
                && (old(stream).Some? ==> unchanged(old(stream).value.tracks))
    {
      if isLive {
        StopCamera();
        request := Some(StartRequest(facingMode));
      } else {
        request := None;
      }
    }

    /**
     * `handleImageUpload` together with the reader's `onloadend`: with no file
     * nothing happens; with one, the data URL the reader produced (null if it
     * failed) becomes the image and the error is cleared. No analysis starts.
     */
    method HandleImageUpload(file: Option<ImageFile>, readerResult: Option<string>)
      requires Valid()
      modifies this`image, this`error
      ensures Valid()
      ensures file.None? ==> image == old(image) && error == old(error)
      ensures file.Some? ==> image == readerResult && error == None
    {
      if file.Some? {
        image := readerResult;
        error := None;
      }
    }

    /** `analyzeImage` up to its `await`: loading is set and the POST goes out. */
    method AnalyzeImage(imageData: Option<string>) returns (request: AnalysisRequest)
      modifies this`loading
      ensures loading
      ensures request == AnalysisRequest(imageData)
    {
      loading := true;
      request := AnalysisRequest(imageData);
    }

    /** The upload "Analyze Image" button, clickable only when CanAnalyzeUpload holds. */
    method AnalyzeUpload() returns (request: AnalysisRequest)
      requires CanAnalyzeUpload()
      modifies this`loading
      ensures loading
      ensures request == AnalysisRequest(image)
    {
      request := AnalyzeImage(image);
    }

    /** The real-time "Analyze Now" button, clickable only when CanAnalyzeNow holds. */
    method AnalyzeNow(pixels: string) returns (request: AnalysisRequest)
      requires CanAnalyzeNow()
      modifies this`loading
      ensures loading
      ensures request == AnalysisRequest(Some(pixels))
    {
      request := AnalyzeImage(CaptureFrame(pixels));
    }

    /**
     * One tick of the 3000 ms interval: capture a frame and, if there is one,
     * start an analysis. Whether a request is already in flight is not
     * consulted.
     */
    method AutoAnalysisTick(pixels: string) returns (request: Option<AnalysisRequest>)
      requires AutoAnalysisRunning()
      modifies this`loading
      ensures loading
      ensures request == Some(AnalysisRequest(Some(pixels)))
    {
      var frame := CaptureFrame(pixels);
      if frame.Some? {
        var sent := AnalyzeImage(frame);
        request := Some(sent);
      } else {
        request := None;
      }
    }

    /**
     * The continuation of `analyzeImage`: on success the response body becomes
     * the results and the error is cleared; on failure the error is set and
     * the results are kept. Either way loading ends false.
     */
    method CompleteAnalysis(outcome: HttpOutcome)
      modifies this`results, this`error, this`loading
      ensures !loading
      ensures Succeeded(outcome) ==> results == Some(outcome.response.body) && error == None
      ensures !Succeeded(outcome) ==> results == old(results) && error == Some(AnalysisErrorText(outcome))
    {
      if Succeeded(outcome) {
        results := Some(outcome.response.body);
        error := None;
      } else {
        error := Some(AnalysisErrorText(outcome));
      }
      loading := false;
    }

    /** The unmount cleanup: if a stream was ever remembered, stop it (again). */
    method Unmount()
      requires Valid()
      modifies this`videoSource, Tracks()
      ensures Valid()
      ensures old(stream).Some? ==> videoSource == None && AllEnded(old(stream).value)
      ensures old(stream).None? ==> videoSource == old(videoSource)
    {
      if stream.Some? {
        StopCamera();
      }
    }
  }

  const DefaultDescription: string := "Your unique body proportions"
  const DefaultColor: string := "#7f8c8d"

  /** `getShapeDescription`. */
  function ShapeDescription(shape: string): (d: string)
    ensures d != DefaultDescription <==> shape in Server.Labels
  {
    if shape == Server.Hourglass then "Balanced shoulders and hips with a clearly defined waist"
    else if shape == Server.Apple then "Broader shoulders and waist compared to hips"
    else if shape == Server.Pear then "Hips wider than shoulders with a defined waist"
    else if shape == Server.Rectangle then "Shoulders, waist and hips are similar in width"
    else if shape == Server.InvertedTriangle then "Shoulders significantly wider than hips"
    else DefaultDescription
  }

  /** `getShapeColor`. */
  function ShapeColor(shape: string): (c: string)
    ensures c != DefaultColor <==> shape in Server.Labels
  {
    if shape == Server.Hourglass then "#9b59b6"
    else if shape == Server.Apple then "#e74c3c"
    else if shape == Server.Pear then "#3498db"
    else if shape == Server.Rectangle then "#2ecc71"
    else if shape == Server.InvertedTriangle then "#f39c12"
    else DefaultColor
  }

  /** The five labels get five different badge colours. */
  lemma ShapeColorsDistinct(a: string, b: string)
    requires a in Server.Labels && b in Server.Labels && a != b
    ensures ShapeColor(a) != ShapeColor(b)
  {
  }

  /** Every successful server response is shown with its own description and colour. */
  lemma ServedShapesAreDecorated(data: Option<map<string, string>>,
                                 processImage: string -> Server.ProcessResult,
                                 estimateMeasurements: (Server.Landmarks, int, int) -> Server.MeasureResult,
                                 elapsed: real)
    ensures var r := Server.Analyze(data, processImage, estimateMeasurements, elapsed);
            r.body.AnalysisBody? ==>
              ShapeDescription(r.body.bodyShape) != DefaultDescription
              && ShapeColor(r.body.bodyShape) != DefaultColor
  {
  }
}
