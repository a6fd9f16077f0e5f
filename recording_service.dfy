/**
 * recordFromRTSP and recordMultipleCameras: validation, capture, upload, record creation
 * and temp-file cleanup, in that order. Every call into the camera table, the capture
 * process, storage and the record table is an oracle held in a `World`.
 */
module RecordingService {
  import opened Wrappers
  import opened Js
  import opened Naming
  import opened RecordingCapture
  import opened RecordingStorage

  /** The fields of a camera row that the service reads; "" is a missing stream address. */
  datatype Camera = Camera(name: Option<string>, streamUrl: string)

  /** `{cameraId, userId, duration}` as it arrives from the request body. */
  datatype Request = Request(cameraId: string, userId: string, duration: JsNumber)

  /** The row passed to RecordRepository.create. */
  datatype Record = Record(cameraId: string, userId: string, url: string)

  /** What the outside world does during one recording. */
  datatype World = World(
    camera: Option<Camera>,       // CameraRepository.findById
    timestamp: nat,               // Date.now()
    captureEvents: seq<Event>,    // what the capture process and its timers produce
    day: string,                  // the current UTC date, YYYY-MM-DD
    userName: NameLookup,         // the user lookup made by the Supabase tier
    cameraName: NameLookup,       // the camera lookup made by the Supabase tier
    uploads: Outcomes,            // what each storage tier would do
    createError: Option<string>)  // RecordRepository.create throws with this message

  /** The observable steps of one recording, in order. */
  datatype Effect = CaptureRan(command: Command) | Uploaded(url: string) | RecordCreated(record: Record) | TempRemoved(path: string)

  /** Stalled: the capture promise never settles, so the call never returns. */
  datatype Outcome = Finished(result: Result<Record>) | Stalled

  datatype Trace = Trace(outcome: Outcome, effects: seq<Effect>)

  const CameraNotFound: string := "Câmera não encontrada"
  const NoStreamUrl: string := "Câmera não possui URL de stream configurada"
  const DurationOutOfBounds: string := "Duração deve ser entre 1 e 300 segundos"
  const TempDir: string := "temp/recordings"

  /** `duration < 1 || duration > 300`: false for NaN (and so for an absent duration). */
  predicate DurationRejected(d: JsNumber) {
    d.Num? && (d.value < 1.0 || d.value > 300.0)
  }

  /** The first failing check, in the order the service makes them. */
  function Validate(req: Request, camera: Option<Camera>): Option<string> {
    if camera.None? then Some(CameraNotFound)
    else if camera.value.streamUrl == "" then Some(NoStreamUrl)
    else if DurationRejected(req.duration) then Some(DurationOutOfBounds)
    else None
  }

  function TempPath(filename: string): string {
    TempDir + "/" + filename
  }

  function CaptureCommand(streamUrl: string, outputPath: string): Command {
    Command(streamUrl, InputOptions(Classify(streamUrl)), VideoFilter, OutputOptions, outputPath)
  }

  /** One recording, as recordFromRTSP performs it. */
  function Recording(env: Env, req: Request, w: World): Trace {
    match Validate(req, w.camera)
    case Some(msg) => Trace(Finished(Err(msg)), [])
    case None =>
      var filename := RecordingFilename(req.cameraId, w.timestamp);
      var temp := TempPath(filename);
      var started := [CaptureRan(CaptureCommand(w.camera.value.streamUrl, temp))];
      match Run(Init(temp), w.captureEvents).settlement
      case Pending => Trace(Stalled, started)
      case Rejected(m) => Trace(Finished(Err(m)), started)
      case Resolved(_) =>
        match Upload(env, filename, w.day, w.userName, w.cameraName, w.uploads)
        case Err(m) => Trace(Finished(Err(m)), started)
        case Ok(url) =>
          var record := Record(req.cameraId, req.userId, url);
          if w.createError.Some? then Trace(Finished(Err(w.createError.value)), started + [Uploaded(url)])
          else Trace(Finished(Ok(record)), started + [Uploaded(url), RecordCreated(record), TempRemoved(temp)])
  }

  /** recordFromRTSP, step by step. */
  method RecordFromRtsp(env: Env, req: Request, w: World) returns (t: Trace)
    ensures t == Recording(env, req, w)
  {
    var effects: seq<Effect> := [];
    if w.camera.None? {
      return Trace(Finished(Err(CameraNotFound)), effects);
    }
    var camera := w.camera.value;
    if camera.streamUrl == "" {
      return Trace(Finished(Err(NoStreamUrl)), effects);
    }
    if DurationRejected(req.duration) {
      return Trace(Finished(Err(DurationOutOfBounds)), effects);
    }
    var filename := RecordingFilename(req.cameraId, w.timestamp);
    var temp := TempPath(filename);
    var command, settlement, signals := Capture(camera.streamUrl, temp, w.captureEvents);
    effects := effects + [CaptureRan(command)];
    if settlement.Pending? {
      return Trace(Stalled, effects);
    }
    if settlement.Rejected? {
      return Trace(Finished(Err(settlement.message)), effects);
    }
    var uploaded := Upload(env, filename, w.day, w.userName, w.cameraName, w.uploads);
    if uploaded.Err? {
      return Trace(Finished(Err(uploaded.message)), effects);
    }
    var url := uploaded.value;
    effects := effects + [Uploaded(url)];
    if w.createError.Some? {
      return Trace(Finished(Err(w.createError.value)), effects);
    }
    var record := Record(req.cameraId, req.userId, url);
    effects := effects + [RecordCreated(record)];
    effects := effects + [TempRemoved(temp)];
    return Trace(Finished(Ok(record)), effects);
  }

  /** Validation stops at the first failure, and no failing check reaches capture, upload or record creation. */
  lemma ValidationOrder(env: Env, req: Request, w: World)
    ensures w.camera.None? ==> Recording(env, req, w) == Trace(Finished(Err(CameraNotFound)), [])
    ensures w.camera.Some? && w.camera.value.streamUrl == "" ==>
              Recording(env, req, w) == Trace(Finished(Err(NoStreamUrl)), [])
    ensures w.camera.Some? && w.camera.value.streamUrl != "" && DurationRejected(req.duration) ==>
              Recording(env, req, w) == Trace(Finished(Err(DurationOutOfBounds)), [])
    ensures Validate(req, w.camera).None? <==>
              |Recording(env, req, w).effects| > 0 && Recording(env, req, w).effects[0].CaptureRan?
  {
  }

  /** Any duration in [1, 300], integral or not, and NaN pass the service's range check. */
  lemma DurationsThatPass(d: JsNumber)
    ensures d.NaN? ==> !DurationRejected(d)
    ensures d.Num? ==> (!DurationRejected(d) <==> 1.0 <= d.value <= 300.0)
    ensures !DurationRejected(Num(1.5))
  {
  }

  /** On success the steps run strictly as capture, upload, record creation, cleanup, and the record carries the stored address. */
  lemma SuccessOrder(env: Env, req: Request, w: World)
    requires Recording(env, req, w).outcome.Finished? && Recording(env, req, w).outcome.result.Ok?
    ensures var r := Recording(env, req, w).outcome.result.value;
            var filename := RecordingFilename(req.cameraId, w.timestamp);
            && r == Record(req.cameraId, req.userId, r.url)
            && Upload(env, filename, w.day, w.userName, w.cameraName, w.uploads) == Ok(r.url)
            && Recording(env, req, w).effects ==
               [CaptureRan(CaptureCommand(w.camera.value.streamUrl, TempPath(filename))),
                Uploaded(r.url), RecordCreated(r), TempRemoved(TempPath(filename))]
  {
  }

  /**
   * A failure creates no record and removes no temp file, and its error is rethrown
   * unchanged: a validation message, the capture's message, the upload's prefixed
   * message or the record table's message.
   */
  lemma FailureKeepsTemp(env: Env, req: Request, w: World)
    requires !(Recording(env, req, w).outcome.Finished? && Recording(env, req, w).outcome.result.Ok?)
    ensures forall e :: e in Recording(env, req, w).effects ==> !e.RecordCreated? && !e.TempRemoved?
    ensures Recording(env, req, w).outcome.Finished? ==>
              var m := Recording(env, req, w).outcome.result.message;
              || m in {CameraNotFound, NoStreamUrl, DurationOutOfBounds}
              || Text.StartsWith(m, CaptureErrorPrefix)
              || Text.StartsWith(m, UploadErrorPrefix)
              || Some(m) == w.createError
  {
    var t := Recording(env, req, w);
    if Validate(req, w.camera).None? {
      var temp := TempPath(RecordingFilename(req.cameraId, w.timestamp));
      var s := Run(Init(temp), w.captureEvents).settlement;
      if s.Rejected? {
        CaptureRejections(temp, w.captureEvents);
      }
    }
  }

  /** The capture only ever rejects with its own prefix. */
  lemma {:induction false} CaptureRejections(output: string, es: seq<Event>)
    ensures Run(Init(output), es).settlement.Rejected? ==>
              Text.StartsWith(Run(Init(output), es).settlement.message, CaptureErrorPrefix)
    decreases |es|
  {
    if |es| > 0 {
      CaptureRejections(output, es[..|es| - 1]);
    }
  }

  /** A recording stalls exactly when it passes validation and the capture never settles. */
  lemma StallsOnlyInCapture(env: Env, req: Request, w: World)
    ensures Recording(env, req, w).outcome.Stalled? <==>
              Validate(req, w.camera).None? &&
              Run(Init(TempPath(RecordingFilename(req.cameraId, w.timestamp))), w.captureEvents).settlement.Pending?
  {
  }

  /** `Promise.allSettled` element: a fulfilled value or the rejection's message. */
  datatype Settled = Fulfilled(value: Record) | RejectedWith(reason: string)

  function SettleOf(o: Outcome): Settled
    requires o.Finished?
  {
    match o.result
    case Ok(r) => Fulfilled(r)
    case Err(m) => RejectedWith(m)
  }

  /**
   * recordMultipleCameras: every request is recorded independently and the results are
   * positional. If any capture never settles, `allSettled` never settles either (None).
   */
  method RecordMultipleCameras(env: Env, reqs: seq<Request>, worlds: seq<World>) returns (results: Option<seq<Settled>>)
    requires |worlds| == |reqs|
    ensures results.None? <==> exists i :: 0 <= i < |reqs| && Recording(env, reqs[i], worlds[i]).outcome.Stalled?
    ensures results.Some? ==>
              && |results.value| == |reqs|
              && forall i :: 0 <= i < |reqs| ==> results.value[i] == SettleOf(Recording(env, reqs[i], worlds[i]).outcome)
  {
    var settled: seq<Settled> := [];
    var stalled := false;
    var i := 0;
    while i < |reqs|
      invariant 0 <= i <= |reqs|
      invariant stalled <==> exists k :: 0 <= k < i && Recording(env, reqs[k], worlds[k]).outcome.Stalled?
      invariant !stalled ==>
                  (|settled| == i &&
                   forall k :: 0 <= k < i ==> settled[k] == SettleOf(Recording(env, reqs[k], worlds[k]).outcome))
    {
      var t := RecordFromRtsp(env, reqs[i], worlds[i]);
      if t.outcome.Stalled? {
        stalled := true;
      } else if !stalled {
        settled := settled + [SettleOf(t.outcome)];
      }
      i := i + 1;
    }
    if stalled {
      results := None;
    } else {
      results := Some(settled);
    }
  }
}
