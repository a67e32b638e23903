/** The renderer's application object (src/renderer/js/core/App.js): the
    upscaling recommendation shown when a file is loaded, and the
    `isProcessing` flag that lets only one job be started at a time. */
module AppCore {
  import opened Wrappers
  import opened Text
  import opened Probe
  import opened FileInfo

  // ---------------------------------------------------------------------
  // The recommendation of showProcessingRecommendations

  /** `Number(s)` for the pieces of a resolution string: the empty string
      is 0, a decimal numeral its value, anything else NaN (None). */
  function JsNumber(s: string): (r: Option<int>)
    ensures s == "" ==> r == Some(0)
    ensures s != "" ==> (r.Some? <==> AllDigits(s))
  {
    if s == "" then Some(0)
    else match ParseNat(s)
      case Some(n) => Some(n)
      case None => None
  }

  /** `const [width, height] = resolution.split('x').map(Number)`: None for
      NaN and for a missing piece (undefined). */
  function ParseResolution(resolution: string): (r: (Option<int>, Option<int>))
    ensures 'x' !in resolution ==> r == (JsNumber(resolution), None)
    ensures r.1.Some? ==> 'x' in resolution
  {
    var parts := Split(resolution, 'x');
    assert 'x' !in resolution ==> parts == [resolution] by {
      if 'x' !in resolution { SplitNoSeparator(resolution, 'x'); }
    }
    (JsNumber(parts[0]), if |parts| >= 2 then JsNumber(parts[1]) else None)
  }

  /** A number that `if (width && height)` accepts: defined, not NaN, not 0. */
  predicate Truthy(n: Option<int>) {
    n.Some? && n.value != 0
  }

  datatype Advice = Warning | Tip | Good
  datatype Severity = WarningSeverity | InfoSeverity

  /** The text of the recommendation and the notification type it is shown with. */
  datatype Recommendation = Recommendation(advice: Advice, message: string, severity: Severity)

  const MaxOutputWidth := 3840
  const MaxOutputHeight := 2160

  /** The output size breaks the 4K frame. */
  predicate TooLarge(outWidth: int, outHeight: int) {
    outWidth > MaxOutputWidth || outHeight > MaxOutputHeight
  }

  /** A factor of at least 3 on an input of HD width or height. */
  predicate SlowOnHd(width: int, height: int, scale: int) {
    scale >= 3 && (width >= 1920 || height >= 1080)
  }

  /** The advice for a `width` by `height` input scaled by `scale`. */
  function AdviceFor(width: int, height: int, scale: int): (a: Advice)
    ensures a == Warning <==> TooLarge(width * scale, height * scale)
    ensures a == Tip <==> !TooLarge(width * scale, height * scale) && SlowOnHd(width, height, scale)
    ensures a == Good <==> !TooLarge(width * scale, height * scale) && !SlowOnHd(width, height, scale)
  {
    var outWidth, outHeight := width * scale, height * scale;
    if outWidth > 3840 || outHeight > 2160 then Warning
    else if scale >= 3 && (width >= 1920 || height >= 1080) then Tip
    else Good
  }

  /** The message of each advice, as the notification shows it. */
  function AdviceMessage(advice: Advice, scale: int, outWidth: int, outHeight: int): (m: string)
    ensures Heading(advice) + IntToString(scale) + "x" <= m
  {
    Heading(advice) + IntToString(scale) + "x"
      + match advice
        case Warning =>
          " upscaling will create a " + IntToString(outWidth) + "x" + IntToString(outHeight)
            + " video, which may be too large. Consider 2x scaling."
        case Tip => " scaling of HD video will take significant time and storage."
        case Good => " scaling will create a " + IntToString(outWidth) + "x" + IntToString(outHeight) + " video."
  }

  /** The emoji and label each kind of recommendation opens with. */
  function Heading(advice: Advice): string {
    match advice
    case Warning => "⚠️ Warning: "
    case Tip => "\U{1F4A1} Tip: "
    case Good => "✅ Good: "
  }

  /** Each kind of recommendation opens with its own character, so the
      notification text tells which advice was given. */
  lemma MessagesDistinct(a1: Advice, a2: Advice, scale: int, outWidth: int, outHeight: int)
    requires a1 != a2
    ensures AdviceMessage(a1, scale, outWidth, outHeight) != AdviceMessage(a2, scale, outWidth, outHeight)
  {
    var m1, m2 := AdviceMessage(a1, scale, outWidth, outHeight), AdviceMessage(a2, scale, outWidth, outHeight);
    assert m1[0] == Heading(a1)[0] && m2[0] == Heading(a2)[0];
  }

  /** `showProcessingRecommendations` as written: nothing unless the
      resolution gives a non-zero width and height; the notification is of
      type warning only when the output width is too large. */
  function Recommend(resolution: string, scale: int): (r: Option<Recommendation>)
    ensures var (w, h) := ParseResolution(resolution);
            r.Some? <==> Truthy(w) && Truthy(h)
    ensures var (w, h) := ParseResolution(resolution);
            r.Some? ==> r.value.advice == AdviceFor(w.value, h.value, scale)
                        && (r.value.severity == WarningSeverity <==> w.value * scale > MaxOutputWidth)
  {
    var (w, h) := ParseResolution(resolution);
    if !(Truthy(w) && Truthy(h)) then None
    else
      var outWidth, outHeight := w.value * scale, h.value * scale;
      var advice := AdviceFor(w.value, h.value, scale);
      Some(Recommendation(advice, AdviceMessage(advice, scale, outWidth, outHeight),
                          if outWidth > 3840 then WarningSeverity else InfoSeverity))
  }

  /** A portrait 1080x1920 input at 2x overflows only in height: the warning
      text is shown as an info notification. */
  lemma PortraitWarningShownAsInfo()
    ensures Recommend("1080x1920", 2).Some?
    ensures Recommend("1080x1920", 2).value.advice == Warning
    ensures Recommend("1080x1920", 2).value.severity == InfoSeverity
    ensures RecommendFixed("1080x1920", 2).value.severity == WarningSeverity
  {
    PortraitResolution();
  }

  /** The portrait resolution string reads as 1080 by 1920. */
  lemma PortraitResolution()
    ensures ParseResolution("1080x1920") == (Some(1080), Some(1920))
  {
    var t := NatToString(1080) + "x" + NatToString(1920);
    ResolutionText(1080, 1920);
    assert t == "1080x1920" by {
      Numeral1080();
      Numeral1920();
    }
  }

  /** The numerals of the portrait example. */
  lemma Numeral1080()
    ensures NatToString(1080) == "1080"
  {
    assert NatToString(1) == "1";
    assert NatToString(10) == "10";
    assert NatToString(108) == "108";
  }

  lemma Numeral1920()
    ensures NatToString(1920) == "1920"
  {
    assert NatToString(1) == "1";
    assert NatToString(19) == "19";
    assert NatToString(192) == "192";
  }

  /** The recommendation with the notification type following the text: a
      warning whenever the warning text is shown. */
  function RecommendFixed(resolution: string, scale: int): (r: Option<Recommendation>)
    ensures r.Some? <==> Recommend(resolution, scale).Some?
    ensures r.Some? ==> r.value.advice == Recommend(resolution, scale).value.advice
                        && r.value.message == Recommend(resolution, scale).value.message
    ensures r.Some? ==> (r.value.severity == WarningSeverity <==> r.value.advice == Warning)
  {
    var (w, h) := ParseResolution(resolution);
    if !(Truthy(w) && Truthy(h)) then None
    else
      var outWidth, outHeight := w.value * scale, h.value * scale;
      var advice := AdviceFor(w.value, h.value, scale);
      Some(Recommendation(advice, AdviceMessage(advice, scale, outWidth, outHeight),
                          if advice == Warning then WarningSeverity else InfoSeverity))
  }

  /** `"WxH"` parses back to its two numbers. */
  lemma ResolutionText(w: nat, h: nat)
    ensures ParseResolution(NatToString(w) + "x" + NatToString(h)) == (Some(w), Some(h))
  {
    var ws, hs := NatToString(w), NatToString(h);
    NatToStringRoundTrip(w);
    NatToStringRoundTrip(h);
    DigitsAvoid(ws, 'x');
    DigitsAvoid(hs, 'x');
    assert ws + "x" + hs == Join([ws, hs], 'x');
    SplitJoin([ws, hs], 'x');
  }

  /** For a file whose first video stream is `w` by `h`, both non-zero, the
      resolution `getVideoInfo` reports yields a recommendation computed on
      exactly that size; for a file without a video stream, or one whose
      information ends in the catch block, none. */
  lemma RecommendationForProbedFile(statOk: bool, probe: ProbeResult, scale: int)
    ensures InfoFails(statOk, probe) || FindVideoStream(probe.value.streams).None? ==>
              RecommendFixed(Resolution(statOk, probe), scale).None?
    ensures !InfoFails(statOk, probe) && FindVideoStream(probe.value.streams).Some? ==>
              var v := FindVideoStream(probe.value.streams).value;
              (RecommendFixed(Resolution(statOk, probe), scale).Some? <==> v.width != 0 && v.height != 0)
              && (v.width != 0 && v.height != 0 ==>
                    RecommendFixed(Resolution(statOk, probe), scale).value.advice == AdviceFor(v.width, v.height, scale))
  {
    if !InfoFails(statOk, probe) && FindVideoStream(probe.value.streams).Some? {
      var v := FindVideoStream(probe.value.streams).value;
      ResolutionText(v.width, v.height);
    } else {
      assert Split("Unknown", 'x') == ["Unknown"] by {
        SplitNoSeparator("Unknown", 'x');
      }
    }
  }


  // ---------------------------------------------------------------------
  // The isProcessing guard

  datatype NotificationType = NotifySuccess | NotifyError | NotifyWarning | NotifyInfo
  datatype Notification = Notification(message: string, kind: NotificationType)

  /** What `startProcessing` hands to the main process. */
  datatype ProcessRequest = ProcessRequest(inputPath: string, outputPath: string)

  /** The application's state: the loaded file's path, the flag, and the
      notifications shown so far. */
  class App {
    var currentFile: Option<string>
    var isProcessing: bool
    var notifications: seq<Notification>

    constructor()
      ensures currentFile.None? && !isProcessing && notifications == []
    {
      currentFile := None;
      isProcessing := false;
      notifications := [];
    }

    /** `handleFileSelected`. `valid` is the main process's validation
        (an error message when the call throws) and `resolution` the
        `resolution` field of the file information (likewise); `scale` is
        the selected factor. A valid file becomes the current file, its
        recommendation (if any) is shown, then the success message. */
    method HandleFileSelected(path: string, valid: Result<bool, string>, resolution: Result<string, string>, scale: int)
      modifies this
      ensures isProcessing == old(isProcessing)
      ensures valid.Failure? || (valid.Success? && valid.value && resolution.Failure?) ==>
                currentFile == old(currentFile)
                && notifications == old(notifications) + [Notification("Failed to load video file", NotifyError)]
      ensures valid == Success(false) ==>
                currentFile == old(currentFile)
                && notifications == old(notifications) + [Notification("Invalid video file format", NotifyError)]
      ensures valid == Success(true) && resolution.Success? ==>
                currentFile == Some(path)
                && notifications == old(notifications) + RecommendationNotice(RecommendFixed(resolution.value, scale))
                                    + [Notification("Video file loaded successfully", NotifySuccess)]
    {
      if valid.Failure? {
        notifications := notifications + [Notification("Failed to load video file", NotifyError)];
        return;
      }
      if !valid.value {
        notifications := notifications + [Notification("Invalid video file format", NotifyError)];
        return;
      }
      if resolution.Failure? {
        notifications := notifications + [Notification("Failed to load video file", NotifyError)];
        return;
      }
      currentFile := Some(path);
      notifications := notifications + RecommendationNotice(RecommendFixed(resolution.value, scale));
      notifications := notifications + [Notification("Video file loaded successfully", NotifySuccess)];
    }

    /** `startProcessing`. Nothing happens while a job runs or without a
        file. `selected` is the output-dialog's answer (an error message
        when it throws; None or "" when cancelled); `rejected` the error
        message when the process call throws. The flag is set before the
        request is sent, and cleared again through `handleProcessError`
        when anything throws. */
    method StartProcessing(selected: Result<Option<string>, string>, rejected: Option<string>)
      returns (sent: Option<ProcessRequest>)
      modifies this
      ensures old(isProcessing) || old(currentFile).None? ==>
                sent.None? && isProcessing == old(isProcessing) && notifications == old(notifications)
      ensures !old(isProcessing) && old(currentFile).Some? ==>
                match selected
                case Failure(e) => sent.None? && !isProcessing && notifications == old(notifications) + [Notification(e, NotifyError)]
                case Success(path) =>
                  if path.None? || path.value == "" then sent.None? && !isProcessing && notifications == old(notifications)
                  else sent == Some(ProcessRequest(old(currentFile).value, path.value))
                       && (isProcessing <==> rejected.None?)
                       && notifications == old(notifications) + (if rejected.Some? then [Notification(rejected.value, NotifyError)] else [])
      ensures currentFile == old(currentFile)
    {
      if isProcessing || currentFile.None? {
        return None;
      }
      match selected {
        case Failure(e) =>
          HandleProcessError(e);
          return None;
        case Success(path) =>
          if path.None? || path.value == "" {
            return None;
          }
          isProcessing := true;
          sent := Some(ProcessRequest(currentFile.value, path.value));
          if rejected.Some? {
            HandleProcessError(rejected.value);
          }
      }
    }

    /** `cancelProcessing`: when the cancel call succeeds, the flag is
        cleared; when it throws, nothing changes. */
    method CancelProcessing(cancelFails: bool)
      modifies this
      ensures cancelFails ==> isProcessing == old(isProcessing) && notifications == old(notifications)
      ensures !cancelFails ==> !isProcessing && notifications == old(notifications) + [Notification("Processing cancelled", NotifyWarning)]
      ensures currentFile == old(currentFile)
    {
      if cancelFails {
        return;
      }
      isProcessing := false;
      notifications := notifications + [Notification("Processing cancelled", NotifyWarning)];
    }

    /** `handleProcessComplete`: clears the flag; the message names the
        output size when the result has one. */
    method HandleProcessComplete(outputSize: Option<string>)
      modifies this
      ensures !isProcessing && currentFile == old(currentFile)
      ensures notifications == old(notifications) + [Notification(CompletionMessage(outputSize), NotifySuccess)]
    {
      isProcessing := false;
      notifications := notifications + [Notification(CompletionMessage(outputSize), NotifySuccess)];
    }

    /** `handleProcessError`: clears the flag and shows the error. */
    method HandleProcessError(error: string)
      modifies this
      ensures !isProcessing && currentFile == old(currentFile)
      ensures notifications == old(notifications) + [Notification(error, NotifyError)]
    {
      isProcessing := false;
      notifications := notifications + [Notification(error, NotifyError)];
    }
  }

  /** The notification a recommendation is shown as: none, or its message
      with the type its severity names. */
  function RecommendationNotice(r: Option<Recommendation>): (shown: seq<Notification>)
    ensures |shown| == (if r.Some? then 1 else 0)
    ensures r.Some? ==> shown[0].message == r.value.message
                        && (shown[0].kind == NotifyWarning <==> r.value.severity == WarningSeverity)
                        && (shown[0].kind != NotifyWarning ==> shown[0].kind == NotifyInfo)
  {
    match r
    case None => []
    case Some(rec) => [Notification(rec.message, if rec.severity == WarningSeverity then NotifyWarning else NotifyInfo)]
  }

  /** The completion message, with " Output size: ..." for a non-empty size. */
  function CompletionMessage(outputSize: Option<string>): (m: string)
    ensures outputSize.None? || outputSize.value == "" ==> m == "Video processing completed successfully!"
    ensures outputSize.Some? && outputSize.value != "" ==>
              m == "Video processing completed successfully!" + " Output size: " + outputSize.value
  {
    if outputSize.Some? && outputSize.value != "" then
      "Video processing completed successfully!" + " Output size: " + outputSize.value
    else "Video processing completed successfully!"
  }

  /** Two clicks on "process" while the first job runs send one request;
      after the job completes, a third click sends the next one. */
  method SecondStartIgnoredUntilComplete() returns (first: Option<ProcessRequest>, second: Option<ProcessRequest>, third: Option<ProcessRequest>)
    ensures first == Some(ProcessRequest("in.mp4", "out.mp4"))
    ensures second.None?
    ensures third == Some(ProcessRequest("in.mp4", "again.mp4"))
  {
    var app := new App();
    app.HandleFileSelected("in.mp4", Success(true), Success("1920x1080"), 2);
    first := app.StartProcessing(Success(Some("out.mp4")), None);
    second := app.StartProcessing(Success(Some("other.mp4")), None);
    app.HandleProcessComplete(Some("12 MB"));
    third := app.StartProcessing(Success(Some("again.mp4")), None);
  }

  /** A job whose process call throws leaves the flag cleared, so the next
      click starts again. */
  method RejectedStartCanBeRetried() returns (retry: Option<ProcessRequest>)
    ensures retry == Some(ProcessRequest("in.mp4", "out.mp4"))
  {
    var app := new App();
    app.HandleFileSelected("in.mp4", Success(true), Success("1920x1080"), 2);
    var first := app.StartProcessing(Success(Some("out.mp4")), Some("ffmpeg not found"));
    retry := app.StartProcessing(Success(Some("out.mp4")), None);
  }
}
