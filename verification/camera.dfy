/** One camera of the capture node: frame ingestion, the recording state
    machine that drives the recorder sinks of a take, the two live-preview
    buffers, and the summary of the last completed take. */
module Cameras {

  import opened Wrappers
  import opened Preview
  import opened Recorder
  import MovingAverage
  import TriggerWait

  /** Camera section of a take summary. */
  datatype CameraInfo = CameraInfo(
    uniqueId: string, model: string, version: string, effectiveFps: real,
    framerate: int, width: int, height: int,
    usingHardwareSync: bool, errorTriggerTimeout: bool)

  /** A JPEG encoding of a preview buffer; the large one is colour-processed
      on request with the black point stored beside it. */
  datatype Jpeg = SmallJpeg(picture: Picture) | LargeJpeg(picture: Picture, blackPoint: int)

  /** The take thumbnail: from the first accepted frame of the take, or else
      the small live preview at stop time. */
  datatype Thumbnail = FirstFrameJpeg(frame: Frame, blackLevel: int) | PreviewJpeg(jpeg: Jpeg)

  /** The summary document of one completed take. */
  datatype Summary = Summary(
    uniqueId: string, sinks: seq<SinkSummary>, camera: CameraInfo,
    jpegThumbnail: Option<Thumbnail>)

  /** Run-relative timing of one frame: the run's start timestamp, the frame's
      time since then, and the gap to the previous frame. */
  datatype Timing = Timing(startTs: real, relTs: real, dt: real)

  /** A frame without a positive timestamp is stamped with the wall clock
      (seconds since 2016-01-01), here a parameter. */
  function RawTimestamp(ts: real, clock: real): (r: real)
    ensures ts > 0.0 ==> r == ts
    ensures ts <= 0.0 ==> r == clock
  {
    if ts > 0.0 then ts else clock
  }

  /** The first frame of a run (image counter 0) starts the run clock, so it
      is at relative time 0 with a zero gap; later frames are measured from
      the run start and their gap from the previous frame. */
  function NextTiming(imageCounter: nat, startTs: real, lastTs: real, raw: real): (t: Timing)
    ensures imageCounter == 0 ==> t == Timing(raw, 0.0, 0.0)
    ensures imageCounter != 0 ==> t.startTs == startTs && t.relTs == raw - startTs
    ensures imageCounter != 0 ==> t.relTs == lastTs + t.dt
  {
    var start := if imageCounter == 0 then raw else startTs;
    var last := if imageCounter == 0 then 0.0 else lastTs;
    Timing(start, raw - start, (raw - start) - last)
  }

  /** The primary sink of a take: discrete image files when a frame limit is
      set, a movie container otherwise. */
  function PrimarySinkKind(nbFrames: int): (k: SinkKind)
    ensures k == ImageSequence <==> nbFrames > 0
    ensures k == Movie <==> nbFrames <= 0
  {
    if nbFrames > 0 then ImageSequence else Movie
  }

  /** Thumbnail choice at stop time: the take's first frame wins, the live
      preview is the fallback, and with neither the field is left out. */
  function ThumbnailFor(firstFrame: Option<Frame>, firstBlackLevel: int, preview: Option<Picture>): (t: Option<Thumbnail>)
    ensures t.None? <==> firstFrame.None? && preview.None?
    ensures firstFrame.Some? ==> t == Some(FirstFrameJpeg(firstFrame.value, firstBlackLevel))
    ensures firstFrame.None? && preview.Some? ==> t == Some(PreviewJpeg(SmallJpeg(preview.value)))
  {
    if firstFrame.Some? then Some(FirstFrameJpeg(firstFrame.value, firstBlackLevel))
    else if preview.Some? then Some(PreviewJpeg(SmallJpeg(preview.value)))
    else None
  }

  /** No sink appears twice in the list. */
  ghost predicate Distinct(rs: seq<Sink>)
  {
    forall j, k :: 0 <= j < k < |rs| ==> rs[j] != rs[k]
  }

  /** Closes every sink of a list, in order; what they hold is kept. */
  method CloseAll(sinks: seq<Sink>)
    modifies sinks
    ensures forall j :: 0 <= j < |sinks| ==> sinks[j].closed
    ensures forall j :: 0 <= j < |sinks| ==> sinks[j].entries == old(sinks[j].entries)
  {
    for i := 0 to |sinks|
      invariant forall j :: 0 <= j < i ==> sinks[j].closed
      invariant forall j :: 0 <= j < |sinks| ==> sinks[j].entries == old(sinks[j].entries)
    {
      sinks[i].Close();
    }
  }

  /** The summaries of a list of closed sinks, in list order: each gives
      its kind and how many frames it accepted. */
  method SummarizeAll(sinks: seq<Sink>) returns (sections: seq<SinkSummary>)
    requires forall j :: 0 <= j < |sinks| ==> sinks[j].closed
    ensures |sections| == |sinks|
    ensures forall j :: 0 <= j < |sinks| ==> sections[j] == SinkSummary(sinks[j].kind, |sinks[j].entries|)
  {
    sections := [];
    for i := 0 to |sinks|
      invariant |sections| == i
      invariant forall j :: 0 <= j < i ==> sections[j] == SinkSummary(sinks[j].kind, |sinks[j].entries|)
    {
      var s := sinks[i].Summarize();
      sections := sections + [s];
    }
  }

  class Camera {
    const uniqueId: string
    /** Capacity of the framerate averaging window. */
    const fpsWindowSize: nat

    var model: string
    var version: string
    var framerate: int
    var width: int
    var height: int
    var bitcount: int
    var usingHardwareSync: bool
    var displayFocusPeak: bool
    var displayOverexposed: bool
    var displayHistogram: bool

    // frame ingestion
    var imageCounter: nat
    var startTs: real
    var lastTs: real
    var fpsWindow: seq<real>
    var effectiveFps: real

    // recording state machine
    var recording: bool
    var waitingForTrigger: bool
    var waitingForTriggerHold: bool
    var waitingDelay: real
    var gotTriggerTimeout: bool
    var closingRecorders: bool
    var recordFramesRemaining: int
    var recorders: seq<Sink>
    var firstFrame: Option<Frame>
    var firstFrameBlackLevel: int
    var encodingBuffersUsed: int
    var writingBuffersUsed: int
    var lastSummary: Option<Summary>

    // live preview buffers
    var previewImage: Option<Picture>
    var largePreviewImage: Option<Picture>
    var largePreviewBlackPoint: int

    /** Settings every state keeps: a supported pixel depth and a framerate
        window within its capacity. */
    ghost predicate Configured()
      reads this`bitcount, this`fpsWindow
    {
      8 <= bitcount <= 16 && 0 < fpsWindowSize && |fpsWindow| <= fpsWindowSize
    }

    /** The shape of the state: a recording camera has exactly two distinct
        open sinks, primary first and metadata second, and is not closing;
        an idle one has none. */
    ghost predicate Shape()
      reads this`bitcount, this`fpsWindow, this`recording, this`recorders,
        this`recordFramesRemaining, this`closingRecorders, recorders
    {
      && Configured()
      && |recorders| == (if recording then 2 else 0)
      && (recording ==>
            && recorders[0] != recorders[1]
            && recorders[0].kind == PrimarySinkKind(recordFramesRemaining)
            && recorders[1].kind == Metadata
            && !recorders[0].closed && !recorders[1].closed
            && !closingRecorders)
    }

    /** Shape, and a take with a frame limit has not reached it yet. */
    ghost predicate Valid()
      reads this`bitcount, this`fpsWindow, this`recording, this`recorders,
        this`recordFramesRemaining, this`closingRecorders, recorders
    {
      && Shape()
      && (recording && recordFramesRemaining > 0 ==> |recorders[0].entries| < recordFramesRemaining)
    }

    function Mode(): DisplayMode
      reads this`displayFocusPeak, this`displayOverexposed, this`displayHistogram
    {
      SelectMode(displayFocusPeak, displayOverexposed, displayHistogram)
    }

    /** The camera section of the summary, from the current state. */
    function Info(): (info: CameraInfo)
      reads this`model, this`version, this`effectiveFps, this`framerate, this`width, this`height,
        this`usingHardwareSync, this`gotTriggerTimeout
      ensures info.uniqueId == uniqueId && info.effectiveFps == effectiveFps
      ensures info.errorTriggerTimeout == gotTriggerTimeout
    {
      CameraInfo(uniqueId, model, version, effectiveFps, framerate, width, height,
                 usingHardwareSync, gotTriggerTimeout)
    }

    constructor (uniqueId: string, fpsWindowSize: nat)
      requires 0 < fpsWindowSize
      ensures Valid()
      ensures this.uniqueId == uniqueId && this.fpsWindowSize == fpsWindowSize
      ensures model == "unknown" && framerate == 24 && width == 320 && height == 200 && bitcount == 8
      ensures !recording && !waitingForTrigger && !waitingForTriggerHold && recorders == []
      ensures recordFramesRemaining == -1 && imageCounter == 0 && effectiveFps == 0.0 && fpsWindow == []
      ensures !displayFocusPeak && !displayOverexposed && !displayHistogram
      ensures previewImage == None && largePreviewImage == None && lastSummary == None && firstFrame == None
      ensures encodingBuffersUsed == 0 && writingBuffersUsed == 0
      ensures version == "" && !usingHardwareSync
      ensures waitingDelay == 0.0 && !gotTriggerTimeout && !closingRecorders && startTs == 0.0 && lastTs == 0.0
      ensures firstFrameBlackLevel == 0 && largePreviewBlackPoint == 0
    {
      this.uniqueId := uniqueId;
      this.fpsWindowSize := fpsWindowSize;
      model := "unknown";
      version := "";
      effectiveFps := 0.0;
      recording := false;
      waitingForTrigger := false;
      waitingForTriggerHold := false;
      framerate := 24;
      width := 320;
      height := 200;
      bitcount := 8;
      recordFramesRemaining := -1;
      imageCounter := 0;
      usingHardwareSync := false;
      displayFocusPeak := false;
      displayOverexposed := false;
      displayHistogram := false;
      encodingBuffersUsed := 0;
      writingBuffersUsed := 0;
      startTs, lastTs, fpsWindow := 0.0, 0.0, [];
      waitingDelay, gotTriggerTimeout, closingRecorders := 0.0, false, false;
      recorders, firstFrame, firstFrameBlackLevel, lastSummary := [], None, 0, None;
      previewImage, largePreviewImage, largePreviewBlackPoint := None, None, 0;
    }

    /** Watchdog signal: the frame source stalled. */
    method GotFrameTimeout()
      modifies this`effectiveFps
      ensures effectiveFps == 0.0
    {
      effectiveFps := 0.0;
    }

    /** Releases the trigger hold, letting trigger detection start. */
    method RemoveRecordingHold()
      modifies this`waitingForTriggerHold
      ensures !waitingForTriggerHold
    {
      waitingForTriggerHold := false;
    }

    /** JPEG of the small preview, absent while the buffer is empty. */
    method GetPreviewImage() returns (jpeg: Option<Jpeg>)
      ensures jpeg.Some? <==> previewImage.Some?
      ensures previewImage.Some? ==> jpeg == Some(SmallJpeg(previewImage.value))
    {
      if previewImage.None? {
        return None;
      }
      jpeg := Some(SmallJpeg(previewImage.value));
    }

    /** JPEG of the large preview, processed on request with the stored black
        point; absent while the buffer is empty. */
    method GetLargePreviewImage() returns (jpeg: Option<Jpeg>)
      ensures jpeg.Some? <==> largePreviewImage.Some?
      ensures largePreviewImage.Some? ==>
        jpeg == Some(LargeJpeg(largePreviewImage.value, largePreviewBlackPoint))
    {
      if largePreviewImage.None? {
        return None;
      }
      jpeg := Some(LargeJpeg(largePreviewImage.value, largePreviewBlackPoint));
    }

    /** Opens a take: no-op while a take is running; otherwise builds the sink
        list [primary, metadata], resets the take state and arms the trigger
        wait with the hold on. */
    method StartRecording(folders: seq<string>, waitForTrigger: bool, nbFrames: int)
      requires Valid()
      modifies this`firstFrame, this`lastSummary, this`recordFramesRemaining,
        this`encodingBuffersUsed, this`writingBuffersUsed, this`recorders,
        this`gotTriggerTimeout, this`closingRecorders, this`recording,
        this`waitingDelay, this`waitingForTriggerHold, this`waitingForTrigger
      ensures Valid()
      ensures old(recording) ==> unchanged(this)
      ensures !old(recording) ==>
        && recording && |recorders| == 2
        && fresh(recorders[0]) && fresh(recorders[1])
        && recorders[0].kind == PrimarySinkKind(nbFrames) && recorders[1].kind == Metadata
        && recorders[0].entries == [] && recorders[1].entries == []
        && recorders[0].destinations == folders && recorders[1].destinations == folders
        && recorders[0].cameraId == uniqueId && recorders[1].cameraId == uniqueId
      ensures !old(recording) ==>
        && firstFrame == None && lastSummary == None && recordFramesRemaining == nbFrames
        && encodingBuffersUsed == 0 && writingBuffersUsed == 0
        && !gotTriggerTimeout && !closingRecorders
        && waitingDelay == TriggerWait.WaitBudget && waitingForTriggerHold
        && waitingForTrigger == waitForTrigger
    {
      if !recording {
        var primary: Sink;
        if nbFrames > 0 {
          primary := new Sink(ImageSequence, uniqueId, folders);
        } else {
          primary := new Sink(Movie, uniqueId, folders);
        }
        var metadata := new Sink(Metadata, uniqueId, folders);
        recorders := [primary, metadata];
        ArmTake(nbFrames, waitForTrigger);
      }
    }

    /** The take state StartRecording resets once the sinks exist: no first
        frame, no summary, the frame limit, zeroed buffer counters, and the
        trigger wait armed with its full budget and the hold on. */
    method ArmTake(nbFrames: int, waitForTrigger: bool)
      modifies this`firstFrame, this`lastSummary, this`recordFramesRemaining,
        this`encodingBuffersUsed, this`writingBuffersUsed,
        this`gotTriggerTimeout, this`closingRecorders, this`recording,
        this`waitingDelay, this`waitingForTriggerHold, this`waitingForTrigger
      ensures firstFrame == None && lastSummary == None && recordFramesRemaining == nbFrames
      ensures encodingBuffersUsed == 0 && writingBuffersUsed == 0
      ensures !gotTriggerTimeout && !closingRecorders && recording
      ensures waitingDelay == TriggerWait.WaitBudget && waitingForTriggerHold
      ensures waitingForTrigger == waitForTrigger
    {
      firstFrame, lastSummary, recordFramesRemaining := None, None, nbFrames;
      encodingBuffersUsed, writingBuffersUsed := 0, 0;
      gotTriggerTimeout, closingRecorders, recording := false, false, true;
      waitingDelay, waitingForTriggerHold, waitingForTrigger := TriggerWait.WaitBudget, true, waitForTrigger;
    }

    /** Closes the take. The last summary is cleared in every case, even when
        idle; a recording camera then closes its take as CloseTake states. */
    method StopRecording()
      requires Shape()
      modifies this`lastSummary, this`closingRecorders, this`recorders, this`recording,
        this`waitingForTrigger, this`waitingForTriggerHold,
        this`encodingBuffersUsed, this`writingBuffersUsed, recorders
      ensures Valid() && !recording && recorders == []
      ensures !old(recording) ==>
        && lastSummary == None && closingRecorders == old(closingRecorders)
        && waitingForTrigger == old(waitingForTrigger)
        && waitingForTriggerHold == old(waitingForTriggerHold)
        && encodingBuffersUsed == old(encodingBuffersUsed)
        && writingBuffersUsed == old(writingBuffersUsed)
      ensures old(recording) ==>
        && closingRecorders && !waitingForTrigger && !waitingForTriggerHold
        && encodingBuffersUsed == 0 && writingBuffersUsed == 0
        && old(recorders)[0].closed && old(recorders)[1].closed
        && old(recorders)[0].entries == old(recorders[0].entries)
        && old(recorders)[1].entries == old(recorders[1].entries)
      ensures old(recording) ==>
        && lastSummary.Some? && lastSummary.value.uniqueId == uniqueId
        && lastSummary.value.camera == Info()
        && lastSummary.value.jpegThumbnail == ThumbnailFor(firstFrame, firstFrameBlackLevel, previewImage)
        && lastSummary.value.sinks == [SinkSummary(old(recorders)[0].kind, |old(recorders[0].entries)|),
                                       SinkSummary(old(recorders)[1].kind, |old(recorders[1].entries)|)]
    {
      lastSummary := None;
      if recording {
        CloseTake();
      }
    }

    /** Closing a running take: every sink is closed, then summarised, the
        list is emptied, the flags and buffer counters are reset, and a
        summary is kept carrying the sinks' contributions, the camera section
        and the thumbnail. */
    method CloseTake()
      requires Shape() && recording
      modifies this`lastSummary, this`closingRecorders, this`recorders, this`recording,
        this`waitingForTrigger, this`waitingForTriggerHold,
        this`encodingBuffersUsed, this`writingBuffersUsed, recorders
      ensures Valid() && !recording && recorders == []
      ensures closingRecorders && !waitingForTrigger && !waitingForTriggerHold
      ensures encodingBuffersUsed == 0 && writingBuffersUsed == 0
      ensures old(recorders)[0].closed && old(recorders)[1].closed
      ensures old(recorders)[0].entries == old(recorders[0].entries)
      ensures old(recorders)[1].entries == old(recorders[1].entries)
      ensures lastSummary.Some? && lastSummary.value.uniqueId == uniqueId
      ensures lastSummary.value.camera == Info()
      ensures lastSummary.value.jpegThumbnail == ThumbnailFor(firstFrame, firstFrameBlackLevel, previewImage)
      ensures lastSummary.value.sinks == [SinkSummary(old(recorders)[0].kind, |old(recorders[0].entries)|),
                                          SinkSummary(old(recorders)[1].kind, |old(recorders[1].entries)|)]
    {
      var sinks := recorders;
      CloseAll(sinks);
      var sections := SummarizeAll(sinks);
      closingRecorders := true;
      KeepSummary(sections);
      EndTake();
    }

    /** The thumbnail of the take being closed: the first accepted frame,
        else the JPEG of the small preview, else none. */
    method TakeThumbnail() returns (thumbnail: Option<Thumbnail>)
      ensures thumbnail == ThumbnailFor(firstFrame, firstFrameBlackLevel, previewImage)
    {
      thumbnail := None;
      if firstFrame.Some? {
        thumbnail := Some(FirstFrameJpeg(firstFrame.value, firstFrameBlackLevel));
      } else if previewImage.Some? {
        var jpeg := GetPreviewImage();
        if jpeg.Some? {
          thumbnail := Some(PreviewJpeg(jpeg.value));
        }
      }
    }

    /** The summary of the take being closed: the sinks' sections, the
        camera section and the thumbnail. */
    method KeepSummary(sections: seq<SinkSummary>)
      modifies this`lastSummary
      ensures lastSummary == Some(Summary(uniqueId, sections, Info(),
                                          ThumbnailFor(firstFrame, firstFrameBlackLevel, previewImage)))
    {
      var thumbnail := TakeThumbnail();
      lastSummary := Some(Summary(uniqueId, sections, Info(), thumbnail));
    }

    /** What StopRecording clears once the summary is kept: the sink list,
        the recording and trigger flags, and the buffer counters. */
    method EndTake()
      requires Configured()
      modifies this`recorders, this`recording, this`waitingForTrigger,
        this`waitingForTriggerHold, this`encodingBuffersUsed, this`writingBuffersUsed
      ensures Valid() && recorders == []
      ensures !recording && !waitingForTrigger && !waitingForTriggerHold
      ensures encodingBuffersUsed == 0 && writingBuffersUsed == 0
    {
      recorders := [];
      recording, waitingForTrigger, waitingForTriggerHold := false, false, false;
      encodingBuffersUsed, writingBuffersUsed := 0, 0;
    }

    /** Hands one accepted frame to every sink, in list order, and keeps the
        last strictly positive queue depth each stage reported. The reports
        read are returned, one per sink, in list order. */
    method Accumulate(e: Entry) returns (ghost encodingReports: seq<int>, ghost writingReports: seq<int>)
      requires Distinct(recorders)
      requires forall j :: 0 <= j < |recorders| ==> !recorders[j].closed
      modifies this`encodingBuffersUsed, this`writingBuffersUsed, recorders
      ensures forall j :: 0 <= j < |recorders| ==> !recorders[j].closed
      ensures forall j :: 0 <= j < |recorders| ==> recorders[j].entries == old(recorders[j].entries) + [e]
      ensures |encodingReports| == |recorders| && |writingReports| == |recorders|
      ensures forall j :: 0 <= j < |recorders| ==>
        encodingReports[j] == recorders[j].BuffersUsed(Encoding) && writingReports[j] == recorders[j].BuffersUsed(Writing)
      ensures encodingBuffersUsed == LastPositive(old(encodingBuffersUsed), encodingReports)
      ensures writingBuffersUsed == LastPositive(old(writingBuffersUsed), writingReports)
      ensures encodingBuffersUsed == old(encodingBuffersUsed) || encodingBuffersUsed > 0
      ensures writingBuffersUsed == old(writingBuffersUsed) || writingBuffersUsed > 0
    {
      var sinks := recorders;
      var encoding, writing := encodingBuffersUsed, writingBuffersUsed;
      encodingReports, writingReports := [], [];
      for i := 0 to |sinks|
        modifies sinks
        invariant forall j :: 0 <= j < |sinks| ==> !sinks[j].closed
        invariant forall j :: 0 <= j < i ==> sinks[j].entries == old(sinks[j].entries) + [e]
        invariant forall j :: i <= j < |sinks| ==> sinks[j].entries == old(sinks[j].entries)
        invariant |encodingReports| == i && |writingReports| == i
        invariant forall j :: 0 <= j < i ==> encodingReports[j] == sinks[j].encodingPending
        invariant forall j :: 0 <= j < i ==> writingReports[j] == sinks[j].writingPending
        invariant encoding == LastPositive(encodingBuffersUsed, encodingReports)
        invariant writing == LastPositive(writingBuffersUsed, writingReports)
      {
        var r := sinks[i];
        r.Append(e);
        var encodingReport, writingReport := r.BuffersUsed(Encoding), r.BuffersUsed(Writing);
        LastPositiveSnoc(encodingBuffersUsed, encodingReports, encodingReport);
        LastPositiveSnoc(writingBuffersUsed, writingReports, writingReport);
        encodingReports := encodingReports + [encodingReport];
        writingReports := writingReports + [writingReport];
        if encodingReport > 0 {
          encoding := encodingReport;
        }
        if writingReport > 0 {
          writing := writingReport;
        }
      }
      assert recorders == sinks;
      LastPositiveIsLast(encodingBuffersUsed, encodingReports);
      LastPositiveIsLast(writingBuffersUsed, writingReports);
      encodingBuffersUsed, writingBuffersUsed := encoding, writing;
    }

    /** The trigger-wait fields as one value. */
    function Trigger(): (t: TriggerWait.TriggerState)
      reads this`waitingForTrigger, this`waitingDelay, this`gotTriggerTimeout
      ensures t.waiting == waitingForTrigger && t.delay == waitingDelay && t.timedOut == gotTriggerTimeout
    {
      TriggerWait.TriggerState(waitingForTrigger, waitingDelay, gotTriggerTimeout)
    }

    /** Timestamps a frame: a missing timestamp is replaced by the wall clock,
        the first frame the camera ever receives starts the run clock, and the
        frame's gap to its predecessor is measured on that clock. */
    method StampFrame(ts: real, clock: real) returns (t: Timing)
      modifies this`startTs, this`lastTs
      ensures t == NextTiming(imageCounter, old(startTs), old(lastTs), RawTimestamp(ts, clock))
      ensures startTs == t.startTs && lastTs == t.relTs
    {
      var frameTs := if ts > 0.0 then ts else clock;
      if imageCounter == 0 {
        startTs := frameTs;
        lastTs := 0.0;
      }
      frameTs := frameTs - startTs;
      var dt := frameTs - lastTs;
      lastTs := frameTs;
      t := Timing(startTs, frameTs, dt);
    }

    /** A positive gap adds its instantaneous rate to the averaging window and
        republishes the window mean; any other gap leaves both alone. */
    method UpdateFramerate(dt: real)
      requires 0 < fpsWindowSize && |fpsWindow| <= fpsWindowSize
      modifies this`fpsWindow, this`effectiveFps
      ensures dt > 0.0 ==>
        && fpsWindow == MovingAverage.Push(old(fpsWindow), 1.0 / dt, fpsWindowSize)
        && effectiveFps == MovingAverage.Mean(fpsWindow)
      ensures dt <= 0.0 ==> fpsWindow == old(fpsWindow) && effectiveFps == old(effectiveFps)
    {
      if dt > 0.0 {
        fpsWindow := MovingAverage.Push(fpsWindow, 1.0 / dt, fpsWindowSize);
        effectiveFps := MovingAverage.Mean(fpsWindow);
      }
    }

    /** Live preview of an idle camera: the small buffer gets the frame
        rendered in the display mode in force, the large one the image as the
        renderer left it, with the frame's black level. */
    method RefreshPreviews(img: Frame, blackLevel: int)
      modifies this`previewImage, this`largePreviewImage, this`largePreviewBlackPoint
      ensures previewImage == Some(Rendered(Mode(), img, blackLevel))
      ensures largePreviewImage == Some(LargePreviewOf(Mode(), img))
      ensures largePreviewBlackPoint == blackLevel
    {
      var current := RawFrame(img);
      if displayFocusPeak {
        current := Overlay(FocusPeak, img);
        previewImage := Some(Rendered(FocusPeak, img, blackLevel));
      } else if displayOverexposed {
        current := Overlay(Overexposed, img);
        previewImage := Some(Rendered(Overexposed, img, blackLevel));
      } else if displayHistogram {
        previewImage := Some(Rendered(Histogram, img, blackLevel));
      } else {
        previewImage := Some(Rendered(Normal, img, blackLevel));
      }
      largePreviewImage := Some(current);
      largePreviewBlackPoint := blackLevel;
    }

    /** One frame of the trigger wait, `dt` seconds after the previous one. */
    method WaitForTrigger(dt: real)
      modifies this`waitingForTrigger, this`waitingDelay, this`gotTriggerTimeout
      ensures Trigger() == TriggerWait.Step(old(Trigger()), waitingForTriggerHold, dt)
    {
      if waitingForTrigger && !waitingForTriggerHold {
        if dt > TriggerWait.TriggerGap {
          waitingForTrigger := false;
        }
        waitingDelay := waitingDelay - dt;
        if waitingDelay < 0.0 {
          gotTriggerTimeout := true;
          waitingForTrigger := false;
        }
      }
    }

    /** The first accepted frame of a take is kept for the thumbnail. */
    method KeepFirstFrame(img: Frame, blackLevel: int)
      modifies this`firstFrame, this`firstFrameBlackLevel
      ensures old(firstFrame).None? ==> firstFrame == Some(img) && firstFrameBlackLevel == blackLevel
      ensures old(firstFrame).Some? ==>
        firstFrame == old(firstFrame) && firstFrameBlackLevel == old(firstFrameBlackLevel)
    {
      if firstFrame.None? {
        firstFrame := Some(img);
        firstFrameBlackLevel := blackLevel;
      }
    }

    /** An accepted frame: kept as the take's first frame if there is none
        yet, then appended to every sink with the buffer counters updated. */
    method Accept(e: Entry)
      requires Shape() && recording
      modifies this`firstFrame, this`firstFrameBlackLevel,
        this`encodingBuffersUsed, this`writingBuffersUsed, recorders
      ensures Shape() && recording
      ensures recorders[0].entries == old(recorders[0].entries) + [e]
      ensures recorders[1].entries == old(recorders[1].entries) + [e]
      ensures firstFrame == (if old(firstFrame).None? then Some(e.frame) else old(firstFrame))
      ensures firstFrameBlackLevel == (if old(firstFrame).None? then e.blackLevel else old(firstFrameBlackLevel))
      ensures encodingBuffersUsed == old(encodingBuffersUsed) || encodingBuffersUsed > 0
      ensures writingBuffersUsed == old(writingBuffersUsed) || writingBuffersUsed > 0
    {
      KeepFirstFrame(e.frame, e.blackLevel);
      var _, _ := Accumulate(e);
    }

    /** A take with a frame limit stops by itself as soon as its primary
        sink holds that many frames. */
    method CheckFrameLimit()
      requires Shape() && recording
      requires recordFramesRemaining > 0 ==> |recorders[0].entries| <= recordFramesRemaining
      modifies this`lastSummary, this`closingRecorders, this`recorders, this`recording,
        this`waitingForTrigger, this`waitingForTriggerHold,
        this`encodingBuffersUsed, this`writingBuffersUsed, recorders
      ensures Valid()
      ensures var stops := recordFramesRemaining > 0 && |old(recorders[0].entries)| == recordFramesRemaining;
        && (stops ==>
              && !recording && !waitingForTrigger && !waitingForTriggerHold && closingRecorders && recorders == []
              && encodingBuffersUsed == 0 && writingBuffersUsed == 0
              && old(recorders)[0].closed && old(recorders)[1].closed
              && old(recorders)[0].entries == old(recorders[0].entries)
              && old(recorders)[1].entries == old(recorders[1].entries)
              && lastSummary.Some? && lastSummary.value.uniqueId == uniqueId
              && lastSummary.value.camera == Info()
              && lastSummary.value.jpegThumbnail == ThumbnailFor(firstFrame, firstFrameBlackLevel, previewImage)
              && lastSummary.value.sinks == [SinkSummary(ImageSequence, recordFramesRemaining),
                                             SinkSummary(Metadata, |old(recorders[1].entries)|)])
        && (!stops ==> unchanged(this) && unchanged(recorders))
    {
      if recordFramesRemaining > 0 && recorders[0].FrameCount() >= recordFramesRemaining {
        StopRecording();
      }
    }

    /** One frame of a running take: the trigger wait advances; once it is
        over the frame is accepted; and the take stops by itself when the
        primary sink reaches the frame limit. */
    method Record(img: Frame, relTs: real, dt: real, blackLevel: int)
      requires Valid() && recording
      modifies this`waitingForTrigger, this`waitingDelay, this`gotTriggerTimeout,
        this`firstFrame, this`firstFrameBlackLevel,
        this`lastSummary, this`closingRecorders, this`recorders, this`recording,
        this`waitingForTriggerHold, this`encodingBuffersUsed, this`writingBuffersUsed, recorders
      ensures Valid()
      ensures Trigger() == TriggerWait.Step(old(Trigger()), old(waitingForTriggerHold), dt)
      ensures waitingForTrigger ==>
        && recording && recorders == old(recorders) && unchanged(recorders)
        && unchanged(this`firstFrame, this`firstFrameBlackLevel, this`lastSummary, this`waitingForTriggerHold,
                     this`encodingBuffersUsed, this`writingBuffersUsed)
      ensures !waitingForTrigger ==>
        && old(recorders)[0].entries == old(recorders[0].entries) + [Entry(img, relTs, blackLevel)]
        && old(recorders)[1].entries == old(recorders[1].entries) + [Entry(img, relTs, blackLevel)]
        && firstFrame == (if old(firstFrame).None? then Some(img) else old(firstFrame))
        && firstFrameBlackLevel == (if old(firstFrame).None? then blackLevel else old(firstFrameBlackLevel))
      ensures var stops := !waitingForTrigger && recordFramesRemaining > 0
                           && |old(recorders[0].entries)| + 1 == recordFramesRemaining;
        && (stops ==>
              && !recording && recorders == [] && !waitingForTriggerHold && closingRecorders
              && old(recorders)[0].closed && old(recorders)[1].closed
              && encodingBuffersUsed == 0 && writingBuffersUsed == 0
              && lastSummary.Some? && lastSummary.value.uniqueId == uniqueId
              && lastSummary.value.camera == Info()
              && lastSummary.value.jpegThumbnail == ThumbnailFor(firstFrame, firstFrameBlackLevel, previewImage)
              && lastSummary.value.sinks == [SinkSummary(ImageSequence, recordFramesRemaining),
                                             SinkSummary(Metadata, |old(recorders[1].entries)| + 1)])
        && (!stops ==>
              && recording && recorders == old(recorders) && lastSummary == old(lastSummary)
              && waitingForTriggerHold == old(waitingForTriggerHold)
              && (encodingBuffersUsed == old(encodingBuffersUsed) || encodingBuffersUsed > 0)
              && (writingBuffersUsed == old(writingBuffersUsed) || writingBuffersUsed > 0))
    {
      WaitForTrigger(dt);
      if !waitingForTrigger && !closingRecorders {
        Accept(Entry(img, relTs, blackLevel));
      }
      CheckFrameLimit();
    }

    /** A frame from the camera driver. Frames with more than one channel are
        dropped untouched. Otherwise the frame is timestamped, feeds the
        framerate estimate, refreshes the live previews when idle or goes
        through the take when recording, and is counted. */
    method GotImage(img: Frame, ts: real, width: int, height: int, bitcount: int,
                    channels: int, blackLevel: int, clock: real)
      requires Valid()
      requires channels == 1 ==> bitcount == 8 || bitcount == 16
      modifies this`startTs, this`lastTs, this`fpsWindow, this`effectiveFps, this`imageCounter,
        this`previewImage, this`largePreviewImage, this`largePreviewBlackPoint,
        this`waitingForTrigger, this`waitingDelay, this`gotTriggerTimeout,
        this`firstFrame, this`firstFrameBlackLevel,
        this`lastSummary, this`closingRecorders, this`recorders, this`recording,
        this`waitingForTriggerHold, this`encodingBuffersUsed, this`writingBuffersUsed, recorders
      ensures Valid()
      ensures channels != 1 ==> unchanged(this) && unchanged(recorders)
      ensures channels == 1 ==>
        var t := NextTiming(old(imageCounter), old(startTs), old(lastTs), RawTimestamp(ts, clock));
        && imageCounter == old(imageCounter) + 1
        && startTs == t.startTs && lastTs == t.relTs
        && (t.dt > 0.0 ==> fpsWindow == MovingAverage.Push(old(fpsWindow), 1.0 / t.dt, fpsWindowSize)
                           && effectiveFps == MovingAverage.Mean(fpsWindow))
        && (t.dt <= 0.0 ==> fpsWindow == old(fpsWindow) && effectiveFps == old(effectiveFps))
      ensures channels == 1 && !old(recording) ==>
        && previewImage == Some(Rendered(Mode(), img, blackLevel))
        && largePreviewImage == Some(LargePreviewOf(Mode(), img))
        && largePreviewBlackPoint == blackLevel
        && !recording && recorders == [] && Trigger() == old(Trigger())
        && unchanged(this`firstFrame, this`firstFrameBlackLevel, this`lastSummary, this`closingRecorders,
                     this`waitingForTriggerHold, this`encodingBuffersUsed, this`writingBuffersUsed)
      ensures channels == 1 && old(recording) ==>
        && unchanged(this`previewImage, this`largePreviewImage, this`largePreviewBlackPoint)
        && Trigger() == TriggerWait.Step(old(Trigger()), old(waitingForTriggerHold), NextTiming(old(imageCounter), old(startTs), old(lastTs), RawTimestamp(ts, clock)).dt)
      ensures channels == 1 && old(recording) && waitingForTrigger ==>
        && recording && recorders == old(recorders) && unchanged(recorders)
        && unchanged(this`firstFrame, this`firstFrameBlackLevel, this`lastSummary, this`waitingForTriggerHold,
                     this`encodingBuffersUsed, this`writingBuffersUsed)
      ensures channels == 1 && old(recording) && !waitingForTrigger ==>
        && (forall j :: 0 <= j < |old(recorders)| ==>
              old(recorders)[j].entries == old(recorders[j].entries) + [Entry(img, NextTiming(old(imageCounter), old(startTs), old(lastTs), RawTimestamp(ts, clock)).relTs, blackLevel)])
        && firstFrame == (if old(firstFrame).None? then Some(img) else old(firstFrame))
        && firstFrameBlackLevel == (if old(firstFrame).None? then blackLevel else old(firstFrameBlackLevel))
      ensures channels == 1 && old(recording) ==>
        var stops := !waitingForTrigger && recordFramesRemaining > 0
                     && |old(recorders[0].entries)| + 1 == recordFramesRemaining;
        && (stops ==>
              && !recording && recorders == [] && !waitingForTriggerHold && closingRecorders
              && old(recorders)[0].closed && old(recorders)[1].closed
              && encodingBuffersUsed == 0 && writingBuffersUsed == 0
              && lastSummary.Some? && lastSummary.value.uniqueId == uniqueId
              && lastSummary.value.camera == Info()
              && lastSummary.value.jpegThumbnail == ThumbnailFor(firstFrame, firstFrameBlackLevel, previewImage)
              && lastSummary.value.sinks == [SinkSummary(ImageSequence, recordFramesRemaining),
                                             SinkSummary(Metadata, |old(recorders[1].entries)| + 1)])
        && (!stops ==>
              && recording && recorders == old(recorders) && lastSummary == old(lastSummary)
              && waitingForTriggerHold == old(waitingForTriggerHold)
              && (encodingBuffersUsed == old(encodingBuffersUsed) || encodingBuffersUsed > 0)
              && (writingBuffersUsed == old(writingBuffersUsed) || writingBuffersUsed > 0))
    {
      if channels != 1 {
        return;
      }
      var t := Ingest(ts, clock);
      Route(img, t.relTs, t.dt, blackLevel);
    }

    /** A single-channel frame is timestamped, counted, and its gap feeds the
        framerate estimate. */
    method Ingest(ts: real, clock: real) returns (t: Timing)
      requires 0 < fpsWindowSize && |fpsWindow| <= fpsWindowSize
      modifies this`startTs, this`lastTs, this`fpsWindow, this`effectiveFps, this`imageCounter
      ensures t == NextTiming(old(imageCounter), old(startTs), old(lastTs), RawTimestamp(ts, clock))
      ensures imageCounter == old(imageCounter) + 1 && startTs == t.startTs && lastTs == t.relTs
      ensures t.dt > 0.0 ==> fpsWindow == MovingAverage.Push(old(fpsWindow), 1.0 / t.dt, fpsWindowSize)
                             && effectiveFps == MovingAverage.Mean(fpsWindow)
      ensures t.dt <= 0.0 ==> fpsWindow == old(fpsWindow) && effectiveFps == old(effectiveFps)
      ensures |fpsWindow| <= fpsWindowSize
    {
      t := StampFrame(ts, clock);
      UpdateFramerate(t.dt);
      imageCounter := imageCounter + 1;
    }

    /** Where a stamped frame goes: to the live previews while idle, through
        the take while recording. */
    method Route(img: Frame, relTs: real, dt: real, blackLevel: int)
      requires Valid()
      modifies this`previewImage, this`largePreviewImage, this`largePreviewBlackPoint,
        this`waitingForTrigger, this`waitingDelay, this`gotTriggerTimeout,
        this`firstFrame, this`firstFrameBlackLevel,
        this`lastSummary, this`closingRecorders, this`recorders, this`recording,
        this`waitingForTriggerHold, this`encodingBuffersUsed, this`writingBuffersUsed, recorders
      ensures Valid()
      ensures !old(recording) ==>
        && previewImage == Some(Rendered(Mode(), img, blackLevel))
        && largePreviewImage == Some(LargePreviewOf(Mode(), img))
        && largePreviewBlackPoint == blackLevel
        && !recording && recorders == [] && Trigger() == old(Trigger())
        && unchanged(this`firstFrame, this`firstFrameBlackLevel, this`lastSummary, this`closingRecorders,
                     this`waitingForTriggerHold, this`encodingBuffersUsed, this`writingBuffersUsed)
      ensures old(recording) ==>
        && unchanged(this`previewImage, this`largePreviewImage, this`largePreviewBlackPoint)
        && Trigger() == TriggerWait.Step(old(Trigger()), old(waitingForTriggerHold), dt)
      ensures old(recording) && waitingForTrigger ==>
        && recording && recorders == old(recorders) && unchanged(recorders)
        && unchanged(this`firstFrame, this`firstFrameBlackLevel, this`lastSummary, this`waitingForTriggerHold,
                     this`encodingBuffersUsed, this`writingBuffersUsed)
      ensures old(recording) && !waitingForTrigger ==>
        && (forall j :: 0 <= j < |old(recorders)| ==>
              old(recorders)[j].entries == old(recorders[j].entries) + [Entry(img, relTs, blackLevel)])
        && firstFrame == (if old(firstFrame).None? then Some(img) else old(firstFrame))
        && firstFrameBlackLevel == (if old(firstFrame).None? then blackLevel else old(firstFrameBlackLevel))
      ensures old(recording) ==>
        var stops := !waitingForTrigger && recordFramesRemaining > 0
                     && |old(recorders[0].entries)| + 1 == recordFramesRemaining;
        && (stops ==>
              && !recording && recorders == [] && !waitingForTriggerHold && closingRecorders
              && old(recorders)[0].closed && old(recorders)[1].closed
              && encodingBuffersUsed == 0 && writingBuffersUsed == 0
              && lastSummary.Some? && lastSummary.value.uniqueId == uniqueId
              && lastSummary.value.camera == Info()
              && lastSummary.value.jpegThumbnail == ThumbnailFor(firstFrame, firstFrameBlackLevel, previewImage)
              && lastSummary.value.sinks == [SinkSummary(ImageSequence, recordFramesRemaining),
                                             SinkSummary(Metadata, |old(recorders[1].entries)| + 1)])
        && (!stops ==>
              && recording && recorders == old(recorders) && lastSummary == old(lastSummary)
              && waitingForTriggerHold == old(waitingForTriggerHold)
              && (encodingBuffersUsed == old(encodingBuffersUsed) || encodingBuffersUsed > 0)
              && (writingBuffersUsed == old(writingBuffersUsed) || writingBuffersUsed > 0))
    {
      if !recording {
        RefreshPreviews(img, blackLevel);
      } else {
        Record(img, relTs, dt, blackLevel);
      }
    }
  }
}
