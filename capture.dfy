/**
 * Stream capture (captureRTSPStream): transport detection from the stream address and the
 * event-driven controller around the capture process. The process, its timers and its
 * control channel are abstract: the controller sees a sequence of events and records the
 * control signals it sends and the one settlement of its promise.
 */
module RecordingCapture {
  import opened Text

  datatype Transport = Rtsp | Http | Unrecognized

  /** Case-insensitive prefix test on the stream address; anything else is Unrecognized and is still captured. */
  function Classify(url: string): Transport {
    var l := Lower(url);
    if StartsWith(l, "rtsp://") then Rtsp
    else if StartsWith(l, "http://") || StartsWith(l, "https://") then Http
    else Unrecognized
  }

  /** Input options passed to the capture process for each transport. */
  function InputOptions(t: Transport): seq<string> {
    match t
    case Rtsp => ["-rtsp_transport", "tcp", "-analyzeduration", "5000000", "-probesize", "5000000"]
    case Http => ["-use_wallclock_as_timestamps", "1"]
    case Unrecognized => []
  }

  /** Output options, the same for every transport (no duration flag: the timer enforces the duration). */
  const OutputOptions: seq<string> :=
    ["-c:v", "libx264", "-preset", "ultrafast", "-crf", "28", "-movflags", "+faststart", "-f", "mp4"]

  const VideoFilter: string := "setpts=PTS-STARTPTS"

  /** The classification ignores letter case. */
  lemma ClassifyIgnoresCase(url: string)
    ensures Classify(Lower(url)) == Classify(url)
  {
    LowerIdempotent(url);
  }

  /** Which input options a stream address gets, stated on the address itself. */
  lemma InputOptionsByScheme(url: string)
    ensures InputOptions(Classify(url)) == InputOptions(Rtsp) <==> StartsWith(Lower(url), "rtsp://")
    ensures InputOptions(Classify(url)) == InputOptions(Http) <==>
              !StartsWith(Lower(url), "rtsp://") &&
              (StartsWith(Lower(url), "http://") || StartsWith(Lower(url), "https://"))
    ensures InputOptions(Classify(url)) == [] <==> Classify(url) == Unrecognized
  {
    assert InputOptions(Rtsp) != InputOptions(Http);
    assert |InputOptions(Rtsp)| > 0 && |InputOptions(Http)| > 0;
  }

  /** Control signals sent to the process: 'q' on its standard input, or SIGTERM. */
  datatype Signal = Quit | Terminate

  /** The state of the promise returned by captureRTSPStream. */
  datatype Settlement = Pending | Resolved(path: string) | Rejected(message: string)

  /** What the controller reacts to. */
  datatype Event =
    | Started                            // 'start': the duration timer is armed
    | DurationElapsed(writeFails: bool)  // the duration timer fires; whether writing 'q' throws
    | GraceElapsed(processKilled: bool)  // the follow-up timer 2 s later fires; whether the process is marked killed
    | Ended                              // 'end'
    | Errored(message: string)           // 'error' with err.message

  /** The controller's shared variables (hasEnded, durationTimer), the follow-up timer, the signals sent and the promise. */
  datatype Job = Job(output: string, hasEnded: bool, timerArmed: bool, graceArmed: bool,
                     sent: seq<Signal>, settlement: Settlement)

  function Init(output: string): Job {
    Job(output, false, false, false, [], Pending)
  }

  /** A promise settles at most once: later resolve/reject calls are ignored. */
  function Settle(s: Settlement, v: Settlement): Settlement {
    if s.Pending? then v else s
  }

  /** Error messages that the handler takes for a deliberate stop. */
  predicate StopsCleanly(message: string) {
    Contains(message, "SIGTERM") || Contains(message, "Exiting normally")
  }

  const CaptureErrorPrefix: string := "Erro ao gravar stream: "

  /** The settlement an 'error' event asks for: a deliberate stop resolves, anything else rejects. */
  function ErrorSettlement(j: Job, msg: string): Settlement {
    if StopsCleanly(msg) then Resolved(j.output) else Rejected(CaptureErrorPrefix + msg)
  }

  /**
   * One handler run. The 'error' handler settles the promise whether or not the duration timer
   * has already ended the capture, as the 'end' handler does; the handler as written settles it
   * only before that (StepAsWritten below).
   */
  function Step(j: Job, e: Event): Job {
    match e
    case Started => j.(timerArmed := true)
    case DurationElapsed(writeFails) =>
      if !j.timerArmed then j
      else if j.hasEnded then j.(timerArmed := false)
      else if writeFails then j.(timerArmed := false, hasEnded := true, sent := j.sent + [Terminate])
      else j.(timerArmed := false, hasEnded := true, sent := j.sent + [Quit], graceArmed := true)
    case GraceElapsed(killed) =>
      if !j.graceArmed then j
      else j.(graceArmed := false, sent := if killed then j.sent else j.sent + [Terminate])
    case Ended =>
      if !j.hasEnded then j.(hasEnded := true, timerArmed := false, settlement := Settle(j.settlement, Resolved(j.output)))
      else j.(settlement := Settle(j.settlement, Resolved(j.output)))
    case Errored(msg) =>
      if !j.hasEnded then j.(hasEnded := true, timerArmed := false, settlement := Settle(j.settlement, ErrorSettlement(j, msg)))
      else j.(settlement := Settle(j.settlement, ErrorSettlement(j, msg)))
  }

  /** The job after a sequence of events, handled in order. */
  function Run(j: Job, es: seq<Event>): Job
    decreases |es|
  {
    if |es| == 0 then j else Step(Run(j, es[..|es| - 1]), es[|es| - 1])
  }

  /** What each event does, as the handlers promise. */
  lemma StepFacts(j: Job, e: Event)
    ensures e.DurationElapsed? && j.timerArmed && !j.hasEnded ==>
              Step(j, e).hasEnded && Step(j, e).settlement == j.settlement &&
              Step(j, e).sent == j.sent + [if e.writeFails then Terminate else Quit] &&
              Step(j, e).graceArmed == (j.graceArmed || !e.writeFails)
    ensures e.DurationElapsed? && j.hasEnded ==> Step(j, e).sent == j.sent && Step(j, e).settlement == j.settlement
    ensures e.GraceElapsed? && j.graceArmed ==>
              Step(j, e).sent == (if e.processKilled then j.sent else j.sent + [Terminate])
    ensures e.Ended? ==> Step(j, e).hasEnded && Step(j, e).settlement != Pending
    ensures e.Ended? && j.settlement.Pending? ==> Step(j, e).settlement == Resolved(j.output)
    ensures e.Ended? ==> (Step(j, e).timerArmed <==> j.timerArmed && j.hasEnded)
    ensures e.Errored? ==> Step(j, e).hasEnded && Step(j, e).settlement != Pending
    ensures e.Errored? && j.settlement.Pending? ==>
              Step(j, e).settlement == (if StopsCleanly(e.message) then Resolved(j.output)
                                        else Rejected(CaptureErrorPrefix + e.message))
    ensures e.Errored? ==> Step(j, e).sent == j.sent && (Step(j, e).timerArmed <==> j.timerArmed && j.hasEnded)
  {
  }

  /** The first settlement is never overwritten, whatever happens afterwards. */
  lemma {:induction false} SettledIsFinal(j: Job, es: seq<Event>)
    requires !j.settlement.Pending?
    ensures Run(j, es).settlement == j.settlement
    decreases |es|
  {
    if |es| > 0 {
      SettledIsFinal(j, es[..|es| - 1]);
    }
  }

  /** Once the controller has ended it never starts again. */
  lemma {:induction false} EndedIsFinal(j: Job, es: seq<Event>)
    requires j.hasEnded
    ensures Run(j, es).hasEnded
    decreases |es|
  {
    if |es| > 0 {
      EndedIsFinal(j, es[..|es| - 1]);
    }
  }

  function CountQuit(s: seq<Signal>): nat {
    multiset(s)[Quit]
  }

  /** Invariant of every reachable job. */
  predicate Reachable(j: Job) {
    && (!j.settlement.Pending? ==> j.hasEnded)
    && (j.graceArmed ==> j.hasEnded)
    && CountQuit(j.sent) <= 1
    && (CountQuit(j.sent) == 1 ==> j.hasEnded)
  }

  lemma StepReachable(j: Job, e: Event)
    requires Reachable(j)
    ensures Reachable(Step(j, e))
  {
    var s := j.sent;
    assert multiset(s + [Quit]) == multiset(s) + multiset{Quit};
    assert multiset(s + [Terminate]) == multiset(s) + multiset{Terminate};
  }

  /** The quit command is written at most once, and only by the duration timer. */
  lemma {:induction false} QuitAtMostOnce(output: string, es: seq<Event>)
    ensures Reachable(Run(Init(output), es))
    ensures CountQuit(Run(Init(output), es).sent) <= 1
    decreases |es|
  {
    if |es| == 0 {
      assert CountQuit([]) == 0;
    } else {
      QuitAtMostOnce(output, es[..|es| - 1]);
      StepReachable(Run(Init(output), es[..|es| - 1]), es[|es| - 1]);
    }
  }

  /** The controller's shared variables, updated in place by its event handlers. */
  class CaptureJob {
    const output: string
    var hasEnded: bool
    var durationTimerArmed: bool
    var graceTimerArmed: bool
    var sent: seq<Signal>
    var settlement: Settlement

    function State(): Job
      reads this
    {
      Job(output, hasEnded, durationTimerArmed, graceTimerArmed, sent, settlement)
    }

    constructor (outputPath: string)
      ensures State() == Init(outputPath)
    {
      output := outputPath;
      hasEnded := false;
      durationTimerArmed := false;
      graceTimerArmed := false;
      sent := [];
      settlement := Pending;
    }

    method Resolve(v: Settlement)
      modifies this`settlement
      ensures settlement == Settle(old(settlement), v)
    {
      if settlement.Pending? {
        settlement := v;
      }
    }

    /** 'start': arm the duration timer. */
    method OnStart()
      modifies this
      ensures State() == Step(old(State()), Started)
    {
      durationTimerArmed := true;
    }

    /** The duration timer fires. */
    method OnDurationTimer(writeFails: bool)
      modifies this
      ensures State() == Step(old(State()), DurationElapsed(writeFails))
    {
      if !durationTimerArmed {
        return;
      }
      durationTimerArmed := false;
      if !hasEnded {
        hasEnded := true;
        if !writeFails {
          sent := sent + [Quit];
          graceTimerArmed := true;
        } else {
          sent := sent + [Terminate];
        }
      }
    }

    /** The follow-up timer fires two seconds after the quit command. */
    method OnGraceTimer(processKilled: bool)
      modifies this
      ensures State() == Step(old(State()), GraceElapsed(processKilled))
    {
      if !graceTimerArmed {
        return;
      }
      graceTimerArmed := false;
      if !processKilled {
        sent := sent + [Terminate];
      }
    }

    /** 'end': always a success. */
    method OnEnd()
      modifies this
      ensures State() == Step(old(State()), Ended)
    {
      if !hasEnded {
        hasEnded := true;
        durationTimerArmed := false;
      }
      Resolve(Resolved(output));
    }

    /** 'error': ends the controller if the timer has not, then settles as a clean stop or a failure. */
    method OnError(message: string)
      modifies this
      ensures State() == Step(old(State()), Errored(message))
    {
      if !hasEnded {
        hasEnded := true;
        durationTimerArmed := false;
      }
      if StopsCleanly(message) {
        Resolve(Resolved(output));
      } else {
        Resolve(Rejected(CaptureErrorPrefix + message));
      }
    }

    method Handle(e: Event)
      modifies this
      ensures State() == Step(old(State()), e)
    {
      match e
      case Started => OnStart();
      case DurationElapsed(w) => OnDurationTimer(w);
      case GraceElapsed(k) => OnGraceTimer(k);
      case Ended => OnEnd();
      case Errored(m) => OnError(m);
    }
  }

  /** How the capture process is configured. */
  datatype Command = Command(input: string, inputOptions: seq<string>, videoFilter: string,
                             outputOptions: seq<string>, output: string)

  /**
   * captureRTSPStream: configure the process for the stream's transport (an unrecognised
   * transport gets no input options and is captured all the same), then drive the
   * controller through the events the process and the timers produce.
   */
  method Capture(streamUrl: string, outputPath: string, events: seq<Event>)
    returns (command: Command, settlement: Settlement, signals: seq<Signal>)
    ensures command == Command(streamUrl, InputOptions(Classify(streamUrl)), VideoFilter, OutputOptions, outputPath)
    ensures settlement == Run(Init(outputPath), events).settlement
    ensures signals == Run(Init(outputPath), events).sent
    ensures CountQuit(signals) <= 1
    ensures settlement.Resolved? ==> settlement.path == outputPath
  {
    command := Command(streamUrl, InputOptions(Classify(streamUrl)), VideoFilter, OutputOptions, outputPath);
    var job := new CaptureJob(outputPath);
    var i := 0;
    while i < |events|
      invariant 0 <= i <= |events|
      invariant job.State() == Run(Init(outputPath), events[..i])
    {
      job.Handle(events[i]);
      assert events[..i + 1][..i] == events[..i];
      i := i + 1;
    }
    assert events[..|events|] == events;
    settlement := job.settlement;
    signals := job.sent;
    QuitAtMostOnce(outputPath, events);
    ResolvedPathIsOutput(outputPath, events);
  }

  /** A resolved capture always yields the output path it was given. */
  lemma {:induction false} ResolvedPathIsOutput(output: string, es: seq<Event>)
    ensures Run(Init(output), es).output == output
    ensures Run(Init(output), es).settlement.Resolved? ==> Run(Init(output), es).settlement.path == output
    decreases |es|
  {
    if |es| > 0 {
      ResolvedPathIsOutput(output, es[..|es| - 1]);
    }
  }

  // ---------------------------------------------------------------------------------------
  // The 'error' handler as written acts only while hasEnded is false. The duration timer sets
  // hasEnded before it writes 'q', so when the process does not quit and is stopped with
  // SIGTERM, the error that reports the kill is dropped and the promise never settles.

  /** One handler run with the 'error' handler exactly as written: ignored once the controller has ended. */
  function StepAsWritten(j: Job, e: Event): Job {
    match e
    case Errored(msg) =>
      if j.hasEnded then j
      else j.(hasEnded := true, timerArmed := false, settlement := Settle(j.settlement, ErrorSettlement(j, msg)))
    case _ => Step(j, e)
  }

  function RunAsWritten(j: Job, es: seq<Event>): Job
    decreases |es|
  {
    if |es| == 0 then j else StepAsWritten(RunAsWritten(j, es[..|es| - 1]), es[|es| - 1])
  }

  /** The two handlers differ only on an error that arrives after the controller has ended. */
  lemma AsWrittenAgrees(j: Job, e: Event)
    ensures !(e.Errored? && j.hasEnded) ==> StepAsWritten(j, e) == Step(j, e)
    ensures e.Errored? && j.hasEnded ==> StepAsWritten(j, e) == j
  {
  }

  /** The process ignores 'q', is killed 2 s later, and reports the kill: as written, the capture never settles. */
  lemma ForcedStopNeverSettles(output: string)
    ensures RunAsWritten(Init(output), [Started, DurationElapsed(false), GraceElapsed(false),
                                        Errored("ffmpeg was killed with signal SIGTERM")]).settlement == Pending
  {
    var m := "ffmpeg was killed with signal SIGTERM";
    var es := [Started, DurationElapsed(false), GraceElapsed(false), Errored(m)];
    var j0 := Init(output);
    var j1 := StepAsWritten(j0, Started);
    var j2 := StepAsWritten(j1, DurationElapsed(false));
    var j3 := StepAsWritten(j2, GraceElapsed(false));
    assert j2.hasEnded && j2.settlement == Pending;
    assert StepAsWritten(j3, Errored(m)) == j3;
    assert es[..1][..0] == [];
    assert RunAsWritten(j0, es[..1]) == j1;
    assert es[..2][..1] == es[..1];
    assert RunAsWritten(j0, es[..2]) == j2;
    assert es[..3][..2] == es[..2];
    assert RunAsWritten(j0, es[..3]) == j3;
    assert es[..3] == es[..|es| - 1];
  }

  /** The same run with the corrected handler resolves with the output path. */
  lemma ForcedStopSettles(output: string)
    ensures Run(Init(output), [Started, DurationElapsed(false), GraceElapsed(false),
                               Errored("ffmpeg was killed with signal SIGTERM")]).settlement == Resolved(output)
  {
    var m := "ffmpeg was killed with signal SIGTERM";
    var es := [Started, DurationElapsed(false), GraceElapsed(false), Errored(m)];
    var j0 := Init(output);
    var j1 := Step(j0, Started);
    var j2 := Step(j1, DurationElapsed(false));
    var j3 := Step(j2, GraceElapsed(false));
    assert es[..1][..0] == [];
    assert Run(j0, es[..1]) == j1;
    assert es[..2][..1] == es[..1];
    assert Run(j0, es[..2]) == j2;
    assert es[..3][..2] == es[..2];
    assert Run(j0, es[..3]) == j3;
    assert es[..3] == es[..|es| - 1];
    assert m == "ffmpeg was killed with signal " + "SIGTERM" + "";
    ContainsMiddle("ffmpeg was killed with signal ", "SIGTERM", "");
  }

  /** Every run that ends with the process exiting, cleanly or not, is settled, and a first settlement stands. */
  lemma {:induction false} ExitSettles(output: string, es: seq<Event>, exit: Event)
    requires exit.Ended? || exit.Errored?
    ensures Run(Init(output), es + [exit]).settlement != Pending
    ensures Run(Init(output), es).settlement != Pending ==>
              Run(Init(output), es + [exit]).settlement == Run(Init(output), es).settlement
  {
    assert (es + [exit])[..|es|] == es;
  }
}
