/** The job side of src/main/services/VideoProcessor.js: the error
    classifier, the progress relay, and the `isProcessing`/`currentProcess`
    guard of `process` and `cancel`, driven by the engine's events. */
module VideoJob {
  import opened Wrappers
  import opened Text
  import opened Probe
  import opened VideoPlan
  import opened VideoFilters

  // ---------------------------------------------------------------------
  // Error classification

  const FallbackMessage: string := "Video processing failed"
  const TimeoutMessage: string := "Processing timed out. Try with smaller scale factor or shorter video."
  const BusyMessage: string := "Another video is currently being processed"

  /** The substrings looked for, in order, and the message each one selects. */
  const Rules: seq<(string, string)> := [
    ("SIGKILL", "Processing was stopped due to high memory usage. Try a smaller scale factor or lower quality setting."),
    ("No space left", "Not enough disk space for the output file."),
    ("Permission denied", "Permission denied. Check file permissions and try a different output location."),
    ("Invalid data", "Invalid video format or corrupted input file.")]

  /** The `error` handler's if/else chain over `error.message`. */
  function ClassifyError(message: string): (r: string)
    ensures r == FallbackMessage || exists k | 0 <= k < |Rules| :: r == Rules[k].1 && Contains(message, Rules[k].0)
  {
    if Contains(message, "SIGKILL") then Rules[0].1
    else if Contains(message, "No space left") then Rules[1].1
    else if Contains(message, "Permission denied") then Rules[2].1
    else if Contains(message, "Invalid data") then Rules[3].1
    else FallbackMessage
  }

  /** The message of the first rule whose substring occurs, if any. */
  function FirstMatch(rules: seq<(string, string)>, message: string): (r: Option<string>)
    ensures r.Some? <==> exists k | 0 <= k < |rules| :: Contains(message, rules[k].0)
  {
    if rules == [] then None
    else if Contains(message, rules[0].0) then Some(rules[0].1)
    else
      var rest := FirstMatch(rules[1..], message);
      assert forall k | 1 <= k < |rules| :: rules[k] == rules[1..][k - 1];
      assert rest.Some? ==> exists k | 0 <= k < |rules| - 1 :: Contains(message, rules[1..][k].0);
      rest
  }

  /** The classifier is the first-match rule over `Rules`, falling back to
      the generic message; the rule chosen is the earliest that matches, and
      no later rule can override it. */
  lemma ClassifyErrorFirstMatch(message: string)
    ensures ClassifyError(message) == FirstMatch(Rules, message).GetOr(FallbackMessage)
    ensures forall k | 0 <= k < |Rules| ::
              Contains(message, Rules[k].0) && (forall j | 0 <= j < k :: !Contains(message, Rules[j].0))
              ==> ClassifyError(message) == Rules[k].1
    ensures ClassifyError(message) == FallbackMessage <==> forall k | 0 <= k < |Rules| :: !Contains(message, Rules[k].0)
  {
    var r1, r2, r3 := Rules[1..], Rules[2..], Rules[3..];
    assert r1[1..] == r2 && r2[1..] == r3 && r3[1..] == [];
    assert FirstMatch(r3, message) == if Contains(message, Rules[3].0) then Some(Rules[3].1) else None;
    assert FirstMatch(r2, message) == if Contains(message, Rules[2].0) then Some(Rules[2].1) else FirstMatch(r3, message);
    assert FirstMatch(r1, message) == if Contains(message, Rules[1].0) then Some(Rules[1].1) else FirstMatch(r2, message);
  }

  // ---------------------------------------------------------------------
  // Progress relay

  /** What ffmpeg reports; each field may be undefined. `targetSize` is a
      number of kilobytes. */
  datatype ProgressEvent = ProgressEvent(
    percent: Option<real>,
    timemark: Option<string>,
    targetSize: Option<real>,
    currentFps: Option<real>,
    currentSpeed: Option<string>)

  /** The `targetSize` passed on: the reported kilobytes, or the string
      "Calculating...". */
  datatype TargetSize = Kilobytes(kb: real) | Calculating

  /** What the relay passes on to the renderer. */
  datatype ProgressUpdate = ProgressUpdate(
    percent: int,
    currentTime: string,
    targetSize: TargetSize,
    fps: real,
    speed: string)

  /** `text || placeholder` for a string that may be undefined: the empty
      string is falsy too. */
  function OrText(text: Option<string>, placeholder: string): (r: string)
    ensures text.None? || text.value == "" ==> r == placeholder
    ensures text.Some? && text.value != "" ==> r == text.value
  {
    if text.None? || text.value == "" then placeholder else text.value
  }

  /** `Math.round(progress.percent || 0)`: an undefined, zero or NaN percent is 0. */
  function RoundedPercent(percent: Option<real>): int {
    Round(percent.GetOr(0.0))
  }

  /** Whether a rounded percent is passed on after `last`. */
  predicate Forwards(last: int, percent: int) {
    percent != last && 0 <= percent <= 100
  }

  /** The update sent for an event. Each `||` replaces a falsy field (undefined,
      an empty string, 0) by the handler's placeholder. */
  function UpdateFor(e: ProgressEvent): (u: ProgressUpdate)
    ensures u.percent == RoundedPercent(e.percent)
    ensures u.currentTime != "" && u.speed != ""
    ensures e.timemark.Some? && e.timemark.value != "" ==> u.currentTime == e.timemark.value
    ensures e.currentSpeed.Some? && e.currentSpeed.value != "" ==> u.speed == e.currentSpeed.value
    ensures u.targetSize == Calculating <==> e.targetSize.None? || e.targetSize.value == 0.0
    ensures u.targetSize.Kilobytes? ==> u.targetSize.kb == e.targetSize.value
    ensures e.currentFps.Some? ==> u.fps == e.currentFps.value
    ensures e.currentFps.None? ==> u.fps == 0.0
  {
    ProgressUpdate(RoundedPercent(e.percent), OrText(e.timemark, "00:00:00"),
                   if e.targetSize.None? || e.targetSize.value == 0.0 then Calculating else Kilobytes(e.targetSize.value),
                   e.currentFps.GetOr(0.0), OrText(e.currentSpeed, "0x"))
  }

  /** The percents forwarded for a run of samples, starting after `last`. */
  function Relay(last: int, samples: seq<Option<real>>): (r: seq<int>)
    ensures |r| <= |samples|
    ensures forall i | 0 <= i < |r| :: 0 <= r[i] <= 100
    decreases |samples|
  {
    if samples == [] then []
    else
      var p := RoundedPercent(samples[0]);
      if Forwards(last, p) then [p] + Relay(p, samples[1..]) else Relay(last, samples[1..])
  }

  /** The value `lastProgress` holds after a run of samples. */
  function LastAfter(last: int, samples: seq<Option<real>>): (r: int)
    ensures r == last || 0 <= r <= 100
    decreases |samples|
  {
    if samples == [] then last
    else
      var p := RoundedPercent(samples[0]);
      LastAfter(if Forwards(last, p) then p else last, samples[1..])
  }

  /** No two consecutive forwarded percents are equal, the first differs
      from the starting value, and the last is the relay's final state. */
  lemma {:induction false} RelayWellFormed(last: int, samples: seq<Option<real>>)
    ensures forall i | 0 < i < |Relay(last, samples)| :: Relay(last, samples)[i] != Relay(last, samples)[i - 1]
    ensures |Relay(last, samples)| > 0 ==> Relay(last, samples)[0] != last
    ensures |Relay(last, samples)| > 0 ==> Relay(last, samples)[|Relay(last, samples)| - 1] == LastAfter(last, samples)
    ensures |Relay(last, samples)| == 0 ==> LastAfter(last, samples) == last
    decreases |samples|
  {
    if samples != [] {
      var p := RoundedPercent(samples[0]);
      if Forwards(last, p) {
        RelayWellFormed(p, samples[1..]);
      } else {
        RelayWellFormed(last, samples[1..]);
      }
    }
  }

  /** A sample whose rounded percent is outside 0..100 is dropped, not
      clamped: appending it changes neither the output nor the state. */
  lemma OutOfRangeDropped(last: int, samples: seq<Option<real>>, x: Option<real>)
    requires RoundedPercent(x) < 0 || RoundedPercent(x) > 100
    ensures Relay(last, samples + [x]) == Relay(last, samples)
    ensures LastAfter(last, samples + [x]) == LastAfter(last, samples)
  {
    RelayAppend(last, samples, x);
  }

  /** A sample is forwarded exactly when its rounded percent is in range and
      differs from the value last forwarded; a drop back to an earlier
      percent is forwarded too. */
  lemma {:induction false} RelayAppend(last: int, samples: seq<Option<real>>, x: Option<real>)
    ensures var before := LastAfter(last, samples);
            var p := RoundedPercent(x);
            Relay(last, samples + [x]) == Relay(last, samples) + (if Forwards(before, p) then [p] else [])
            && LastAfter(last, samples + [x]) == (if Forwards(before, p) then p else before)
    decreases |samples|
  {
    if samples == [] {
      assert [x][1..] == [];
    } else {
      assert (samples + [x])[1..] == samples[1..] + [x];
      var p := RoundedPercent(samples[0]);
      RelayAppend(if Forwards(last, p) then p else last, samples[1..], x);
    }
  }

  /** Starting from 0, an initial 0% (or an undefined percent) is not
      forwarded; 40%, 40.2%, 120% and then 35% forward 40 and 35 only. */
  lemma RelayExample()
    ensures Relay(0, [Some(0.0)]) == [] && Relay(0, [None]) == []
    ensures Relay(0, [Some(40.0), Some(40.2), Some(120.0), Some(35.0)]) == [40, 35]
  {
    var s: seq<Option<real>> := [Some(40.0), Some(40.2), Some(120.0), Some(35.0)];
    assert RoundedPercent(Some(40.2)) == 40;
    assert s[1..][1..][1..][1..] == [];
  }

  /** The `progress` handler of one job, with its captured `lastProgress`. */
  class ProgressRelay {
    var lastProgress: int

    constructor()
      ensures lastProgress == 0
    {
      lastProgress := 0;
    }

    /** Handles one event: returns the update to send, if any. */
    method OnProgress(e: ProgressEvent) returns (sent: Option<ProgressUpdate>)
      modifies this
      ensures sent.Some? <==> Forwards(old(lastProgress), RoundedPercent(e.percent))
      ensures sent.Some? ==> sent.value == UpdateFor(e)
      ensures lastProgress == LastAfter(old(lastProgress), [e.percent])
    {
      var percent := RoundedPercent(e.percent);
      if percent != lastProgress && percent >= 0 && percent <= 100 {
        lastProgress := percent;
        sent := Some(UpdateFor(e));
      } else {
        sent := None;
      }
    }
  }

  // ---------------------------------------------------------------------
  // The job guard

  datatype Signal = SIGTERM | SIGKILL

  /** A signal sent to the command with the given launch number. */
  datatype Kill = Kill(command: nat, signal: Signal)

  /** One launched ffmpeg command and the plan it runs. */
  datatype Job = Job(plan: Plan, command: Command)

  /** The value `process` resolves with. */
  datatype JobResult = JobResult(
    inputPath: string,
    outputPath: string,
    outputSize: nat,
    finalScaleFactor: real,
    outputWidth: int,
    outputHeight: int,
    message: string)

  /** The `VideoProcessor` object. `currentProcess` is the launch number of
      the command last started (never cleared on completion, only by
      `cancel`); `settled` holds the commands whose job has already resolved
      or rejected; `kills` records every signal sent. */
  class VideoProcessor {
    var isProcessing: bool
    var currentProcess: Option<nat>
    var launched: seq<Job>
    var settled: set<nat>
    var kills: seq<Kill>

    /** Every command named in the state has been launched. */
    predicate Valid()
      reads this
    {
      (currentProcess.Some? ==> currentProcess.value < |launched|)
      && (forall id | id in settled :: id < |launched|)
      && (forall i | 0 <= i < |kills| :: kills[i].command < |launched|)
    }

    constructor()
      ensures Valid()
      ensures !isProcessing && currentProcess.None? && launched == [] && settled == {} && kills == []
    {
      isProcessing := false;
      currentProcess := None;
      launched := [];
      settled := {};
      kills := [];
    }

    /** The guard at the start of `process`: a second job is refused and
        nothing changes; otherwise the processor becomes busy. */
    method Begin() returns (r: Result<(), string>)
      modifies this
      ensures old(isProcessing) ==> r == Failure(BusyMessage) && isProcessing
      ensures !old(isProcessing) ==> r.Success? && isProcessing
      ensures currentProcess == old(currentProcess) && launched == old(launched)
      ensures settled == old(settled) && kills == old(kills)
    {
      if isProcessing {
        return Failure(BusyMessage);
      }
      isProcessing := true;
      r := Success(());
    }

    /** The rest of `process` once the probe has answered: the plan is
        optimised and the command built and started. A failed probe or a
        failed start rejects the job and clears `isProcessing`. */
    method Launch(options: Options, probe: ProbeResult, saveError: Option<string>) returns (r: Result<nat, string>)
      requires Valid()
      modifies this
      ensures Valid()
      ensures kills == old(kills)
      ensures Optimize(options, probe).Failure? ==>
                r == Failure(Optimize(options, probe).error) && !isProcessing
                && launched == old(launched) && currentProcess == old(currentProcess) && settled == old(settled)
      ensures Optimize(options, probe).Success? ==>
                |launched| == |old(launched)| + 1 && launched[..|old(launched)|] == old(launched)
                && launched[|old(launched)|].plan == Optimize(options, probe).value
                && CommandFor(launched[|old(launched)|].plan, launched[|old(launched)|].command)
                && currentProcess == Some(|old(launched)|)
      ensures Optimize(options, probe).Success? && saveError.Some? ==>
                r == Failure("Failed to start FFmpeg: " + saveError.value) && !isProcessing
                && settled == old(settled) + {|old(launched)|}
      ensures Optimize(options, probe).Success? && saveError.None? ==>
                r == Success(|old(launched)|) && isProcessing == old(isProcessing) && settled == old(settled)
    {
      var optimized := Optimize(options, probe);
      if optimized.Failure? {
        isProcessing := false;
        return Failure(optimized.error);
      }
      var command := EnhanceCommand(optimized.value);
      var id := |launched|;
      launched := launched + [Job(optimized.value, command)];
      currentProcess := Some(id);
      if saveError.Some? {
        settled := settled + {id};
        isProcessing := false;
        return Failure("Failed to start FFmpeg: " + saveError.value);
      }
      r := Success(id);
    }

    /** The `end` event of command `id`, with the result of checking the
        output file (its size, or the error message). The first event of a
        job settles it and clears `isProcessing`; later ones do nothing. */
    method OnEnd(id: nat, stat: Result<nat, string>) returns (r: Option<Result<JobResult, string>>)
      requires Valid()
      modifies this
      ensures Valid()
      ensures launched == old(launched) && kills == old(kills) && currentProcess == old(currentProcess)
      ensures id >= |launched| || id in old(settled) ==>
                r.None? && isProcessing == old(isProcessing) && settled == old(settled)
      ensures id < |launched| && id !in old(settled) ==>
                r.Some? && !isProcessing && settled == old(settled) + {id}
      ensures id < |launched| && id !in old(settled) && stat.Failure? ==>
                r == Some(Failure("Output file verification failed: " + stat.error))
      ensures id < |launched| && id !in old(settled) && stat.Success? ==>
                r.Some? && r.value.Success? && r.value.value.outputSize == stat.value
                && r.value.value.outputPath == launched[id].plan.request.outputPath
                && r.value.value.finalScaleFactor == launched[id].plan.scaleFactor
                && r.value.value.outputWidth == launched[id].plan.outputWidth
                && r.value.value.outputHeight == launched[id].plan.outputHeight
    {
      if id >= |launched| || id in settled {
        return None;
      }
      settled := settled + {id};
      isProcessing := false;
      var plan := launched[id].plan;
      match stat
      case Failure(e) =>
        r := Some(Failure("Output file verification failed: " + e));
      case Success(size) =>
        r := Some(Success(JobResult(plan.request.inputPath, plan.request.outputPath, size, plan.scaleFactor,
                                    plan.outputWidth, plan.outputHeight, "Video processing completed successfully")));
    }

    /** The `error` event of command `id`: the job rejects with the
        classified message and `isProcessing` is cleared. */
    method OnError(id: nat, message: string) returns (r: Option<string>)
      requires Valid()
      modifies this
      ensures Valid()
      ensures launched == old(launched) && kills == old(kills) && currentProcess == old(currentProcess)
      ensures id >= |launched| || id in old(settled) ==>
                r.None? && isProcessing == old(isProcessing) && settled == old(settled)
      ensures id < |launched| && id !in old(settled) ==>
                r == Some(ClassifyError(message)) && !isProcessing && settled == old(settled) + {id}
    {
      if id >= |launched| || id in settled {
        return None;
      }
      settled := settled + {id};
      isProcessing := false;
      r := Some(ClassifyError(message));
    }

    /** The 30-minute timer of command `id`, which only runs while the job
        is unsettled: SIGTERM to the command and a rejected job. */
    method OnTimeout(id: nat) returns (r: Option<string>)
      requires Valid()
      modifies this
      ensures Valid()
      ensures launched == old(launched) && currentProcess == old(currentProcess)
      ensures id >= |launched| || id in old(settled) ==>
                r.None? && isProcessing == old(isProcessing) && settled == old(settled) && kills == old(kills)
      ensures id < |launched| && id !in old(settled) ==>
                r == Some(TimeoutMessage) && !isProcessing && settled == old(settled) + {id}
                && kills == old(kills) + [Kill(id, SIGTERM)]
    {
      if id >= |launched| || id in settled {
        return None;
      }
      kills := kills + [Kill(id, SIGTERM)];
      settled := settled + {id};
      isProcessing := false;
      r := Some(TimeoutMessage);
    }

    /** `cancel`: only when a command is current and a job is running, sends
        it SIGTERM and clears both fields; returns the command the 5-second
        grace timer is armed for. */
    method Cancel() returns (armed: Option<nat>)
      requires Valid()
      modifies this
      ensures Valid()
      ensures launched == old(launched) && settled == old(settled)
      ensures old(currentProcess).Some? && old(isProcessing) ==>
                armed == old(currentProcess) && kills == old(kills) + [Kill(armed.value, SIGTERM)]
                && !isProcessing && currentProcess.None?
      ensures !(old(currentProcess).Some? && old(isProcessing)) ==>
                armed.None? && kills == old(kills)
                && isProcessing == old(isProcessing) && currentProcess == old(currentProcess)
    {
      if currentProcess.Some? && isProcessing {
        armed := currentProcess;
        kills := kills + [Kill(currentProcess.value, SIGTERM)];
        isProcessing := false;
        currentProcess := None;
      } else {
        armed := None;
      }
    }

    /** The grace timer as written: five seconds after a cancel it SIGKILLs
        whatever command is current if a job is running by then, and throws
        (returns false) when a job is running with no command yet. */
    method GraceTimer() returns (ok: bool)
      requires Valid()
      modifies this
      ensures Valid()
      ensures launched == old(launched) && settled == old(settled)
      ensures isProcessing == old(isProcessing) && currentProcess == old(currentProcess)
      ensures ok <==> !(old(isProcessing) && old(currentProcess).None?)
      ensures old(isProcessing) && old(currentProcess).Some? ==>
                kills == old(kills) + [Kill(old(currentProcess).value, SIGKILL)]
      ensures !(old(isProcessing) && old(currentProcess).Some?) ==> kills == old(kills)
    {
      ok := true;
      if isProcessing {
        if currentProcess.None? {
          return false;
        }
        kills := kills + [Kill(currentProcess.value, SIGKILL)];
      }
    }

    /** The grace timer as intended: it force-kills the command it was armed
        for, and only if that command's job has not settled yet. */
    method GraceTimerFixed(armed: nat)
      requires Valid()
      requires armed < |launched|
      modifies this
      ensures Valid()
      ensures launched == old(launched) && settled == old(settled)
      ensures isProcessing == old(isProcessing) && currentProcess == old(currentProcess)
      ensures kills == old(kills) + (if armed in old(settled) then [] else [Kill(armed, SIGKILL)])
      ensures forall i | |old(kills)| <= i < |kills| :: kills[i].command == armed
    {
      if armed !in settled {
        kills := kills + [Kill(armed, SIGKILL)];
      }
    }
  }

  /** Shared by both grace-timer scenarios: a 1920x1080 input at 2x. */
  function ScenarioOptions(): Options {
    Options("in.mp4", "out.mp4", 2.0, None, None, None)
  }

  function ScenarioProbe(): ProbeResult {
    Success(Metadata([Stream("video", 1920, 1080, Some("h264"))], Some(30.0), Some("mov,mp4")))
  }

  /** Job 0 is cancelled; its ffmpeg exits with an error; job 1 starts within
      five seconds; the grace timer armed for job 0 then fires. As written it
      SIGKILLs job 1, which nobody cancelled. */
  method GraceTimerKillsNextJob() returns (killed: seq<Kill>)
    ensures killed == [Kill(0, SIGTERM), Kill(1, SIGKILL)]
  {
    var p := new VideoProcessor();
    var _ := p.Begin();
    var first := p.Launch(ScenarioOptions(), ScenarioProbe(), None);
    assert FindVideoStream(ScenarioProbe().value.streams).Some?;
    var armed := p.Cancel();
    var _ := p.OnError(0, "ffmpeg was killed with signal SIGTERM");
    var _ := p.Begin();
    var second := p.Launch(ScenarioOptions(), ScenarioProbe(), None);
    var _ := p.GraceTimer();
    killed := p.kills;
  }

  /** The same sequence with the corrected timer: job 0 has already settled,
      so nothing is killed and job 1 keeps running. */
  method GraceTimerFixedSparesNextJob() returns (killed: seq<Kill>, running: bool)
    ensures killed == [Kill(0, SIGTERM)] && running
  {
    var p := new VideoProcessor();
    var _ := p.Begin();
    var first := p.Launch(ScenarioOptions(), ScenarioProbe(), None);
    assert FindVideoStream(ScenarioProbe().value.streams).Some?;
    var armed := p.Cancel();
    var _ := p.OnError(0, "ffmpeg was killed with signal SIGTERM");
    var _ := p.Begin();
    var second := p.Launch(ScenarioOptions(), ScenarioProbe(), None);
    p.GraceTimerFixed(armed.value);
    killed := p.kills;
    running := p.isProcessing;
  }

  /** Without a new job between the cancel and the timer, the as-written
      timer never fires: cancel cleared `isProcessing`. */
  method GraceTimerIdleAfterCancel() returns (killed: seq<Kill>)
    ensures killed == [Kill(0, SIGTERM)]
  {
    var p := new VideoProcessor();
    var _ := p.Begin();
    var first := p.Launch(ScenarioOptions(), ScenarioProbe(), None);
    assert FindVideoStream(ScenarioProbe().value.streams).Some?;
    var armed := p.Cancel();
    var _ := p.OnError(0, "ffmpeg was killed with signal SIGTERM");
    var _ := p.GraceTimer();
    killed := p.kills;
  }
}
