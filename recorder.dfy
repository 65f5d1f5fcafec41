/** The recorder: plays an uploaded video twice, runs the landmark detector on
    every video frame, keeps the detections of the second (half-speed) pass,
    and at the second end of the video hands the session record to the
    download. Each event handler is one atomic step over `State`; the calls
    it makes to the video, the detector and the download are logged as
    `Effect`s in the order the handler makes them. */
module Recorder {
  import opened Wrappers
  import opened Landmarks

  const RECORDER_PLAYBACK_RATE: real := 0.5
  const DEFAULT_FILE_NAME: string := "download"
  const DETECTOR_NULL: string := "detector is null"
  const NO_FRAME_CALLBACK: string := "no requestVideoFrameCallback"

  /** A file chosen in the page's file input. */
  datatype File = File(name: string)

  /** An opaque handle on a created landmark detector. */
  datatype Detector = Detector(id: nat)

  /** What one `estimateFaces` call answers: the detected faces, or a throw. */
  datatype Estimate = Detected(faces: FrameFaces) | EstimateThrew

  /** The calls a handler makes on its collaborators. */
  datatype Effect =
    | RequestVideoFrameCallback
    | DrawVideoFrame
    | EstimateFaces(detector: Detector)
    | DrawFaces(faces: FrameFaces)
    | DisposeDetector(detector: Detector)
    | LogError
    | RevokeSource
    | SetSource(file: File)
    | LoadVideo
    | SetPlaybackRate(rate: real)
    | PlayVideo
    | DownloadArtifact(fileName: string, record: SessionRecord)

  /** The recorder's fields, with the canvas size and the file input's selection. */
  datatype RecorderState = RecorderState(
    endedCount: nat,
    facesList: FacesTimeline,
    detector: Option<Detector>,
    canvasWidth: nat,
    canvasHeight: nat,
    selected: Option<File>)

  /** The state a handler leaves, the calls it made, and how it completed. */
  datatype Step = Step(next: RecorderState, effects: seq<Effect>, completion: Completion)

  function Initial(canvasWidth: nat, canvasHeight: nat, selected: Option<File>): RecorderState {
    RecorderState(0, [], None, canvasWidth, canvasHeight, selected)
  }

  // ---------------------------------------------------------------------
  // The handlers as functions

  /** A video frame is available (`width` x `height` is its size). The handler
      first requests the next frame callback, resizes the canvas and draws the
      frame; it fails if there is no detector; otherwise it asks for the faces
      and appends them to the timeline during the second pass only. A throwing
      detector is disposed of and dropped. */
  function FrameCallback(s: RecorderState, width: nat, height: nat, estimate: Estimate): (st: Step)
    ensures st.next.endedCount == s.endedCount && st.next.selected == s.selected
    ensures st.next.canvasWidth == width && st.next.canvasHeight == height
    ensures st.next.facesList ==
      if s.endedCount == 1 && s.detector.Some? && estimate.Detected?
      then s.facesList + [estimate.faces] else s.facesList
    ensures st.next.detector == if estimate.EstimateThrew? then None else s.detector
    ensures st.completion == if s.detector.None? then Threw(DETECTOR_NULL) else Done
    ensures s.detector.None? ==> st.effects == [RequestVideoFrameCallback, DrawVideoFrame]
    ensures s.detector.Some? ==> EstimateFaces(s.detector.value) in st.effects
    ensures s.detector.Some? && estimate.EstimateThrew? ==> DisposeDetector(s.detector.value) in st.effects
  {
    var resized := s.(canvasWidth := width, canvasHeight := height);
    var started := [RequestVideoFrameCallback, DrawVideoFrame];
    match s.detector
    case None => Step(resized, started, Threw(DETECTOR_NULL))
    case Some(d) =>
      match estimate
      case Detected(faces) =>
        var next := if s.endedCount == 1 then resized.(facesList := s.facesList + [faces]) else resized;
        Step(next, started + [EstimateFaces(d), DrawFaces(faces)], Done)
      case EstimateThrew =>
        Step(resized.(detector := None), started + [EstimateFaces(d), DisposeDetector(d), LogError], Done)
  }

  /** Download name of the artifact: the selected file's name, or "download"
      when nothing is selected, followed by the artifact extension. */
  function DownloadName(selected: Option<File>): (name: string)
    ensures selected.Some? ==> name == ArtifactName(selected.value.name)
    ensures selected.None? ==> name == "download.bson.gz"
  {
    ArtifactName(if selected.Some? then selected.value.name else DEFAULT_FILE_NAME)
  }

  /** The record built from the canvas size and the timeline. */
  function RecordOf(s: RecorderState): SessionRecord {
    SessionRecord(VideoSize(s.canvasWidth, s.canvasHeight), s.facesList)
  }

  /** The video ended: the second end hands the record to the download, any
      other end reloads the video and replays it at half speed. */
  function Ended(s: RecorderState): (st: Step)
    ensures st.next == s.(endedCount := s.endedCount + 1) && st.completion == Done
    ensures st.effects != [] && (st.effects[0].DownloadArtifact? <==> s.endedCount == 1)
    ensures s.endedCount == 1 ==>
      st.effects == [DownloadArtifact(DownloadName(s.selected), SessionRecord(VideoSize(s.canvasWidth, s.canvasHeight), s.facesList))]
    ensures s.endedCount != 1 ==> st.effects == [LoadVideo, SetPlaybackRate(RECORDER_PLAYBACK_RATE), PlayVideo]
  {
    var next := s.(endedCount := s.endedCount + 1);
    if next.endedCount == 2 then
      Step(next, [DownloadArtifact(DownloadName(s.selected), RecordOf(s))], Done)
    else
      Step(next, [LoadVideo, SetPlaybackRate(RECORDER_PLAYBACK_RATE), PlayVideo], Done)
  }

  /** The file input changed to `selected`. Without frame-callback support the
      handler fails; otherwise it requests a frame callback and, when a file is
      selected, swaps the video source, clears the timeline and plays. */
  function FileChange(s: RecorderState, frameCallbackSupported: bool, selected: Option<File>): (st: Step)
    ensures st.next == s.(selected := selected, facesList := st.next.facesList)
    ensures st.next.facesList == if frameCallbackSupported && selected.Some? then [] else s.facesList
    ensures st.completion == if frameCallbackSupported then Done else Threw(NO_FRAME_CALLBACK)
    ensures !frameCallbackSupported <==> st.effects == []
    ensures frameCallbackSupported ==> st.effects[0] == RequestVideoFrameCallback
    ensures frameCallbackSupported && selected.Some? ==>
      SetSource(selected.value) in st.effects && PlayVideo in st.effects
    ensures !(frameCallbackSupported && selected.Some?) ==> forall e :: e in st.effects ==> e == RequestVideoFrameCallback
  {
    var chosen := s.(selected := selected);
    if !frameCallbackSupported then Step(chosen, [], Threw(NO_FRAME_CALLBACK))
    else if selected.None? then Step(chosen, [RequestVideoFrameCallback], Done)
    else Step(chosen.(facesList := []),
              [RequestVideoFrameCallback, RevokeSource, SetSource(selected.value), PlayVideo], Done)
  }

  // ---------------------------------------------------------------------
  // One handler at a time

  /** The next frame callback is requested before anything else, in
      particular before the detector is asked for faces. */
  lemma FrameCallbackRequestsNextFirst(s: RecorderState, width: nat, height: nat, estimate: Estimate)
    ensures var st := FrameCallback(s, width, height, estimate);
      && st.effects != [] && st.effects[0] == RequestVideoFrameCallback
      && forall i :: 0 <= i < |st.effects| && st.effects[i].EstimateFaces? ==> 0 < i
  {
  }

  // ---------------------------------------------------------------------
  // Runs of events

  datatype FrameInput = FrameInput(width: nat, height: nat, estimate: Estimate)

  datatype Event =
    | Frame(input: FrameInput)
    | VideoEnded
    | FileChanged(frameCallbackSupported: bool, selected: Option<File>)

  function Apply(s: RecorderState, e: Event): Step {
    match e
    case Frame(i) => FrameCallback(s, i.width, i.height, i.estimate)
    case VideoEnded => Ended(s)
    case FileChanged(supported, selected) => FileChange(s, supported, selected)
  }

  /** The state after a run of events and every call made on the way. */
  datatype Trace = Trace(last: RecorderState, effects: seq<Effect>)

  /** Runs `events` from `s`, one handler at a time, with `step` as the handler. */
  function RunWith(step: (RecorderState, Event) -> Step, s: RecorderState, events: seq<Event>): Trace
    decreases |events|
  {
    if events == [] then Trace(s, [])
    else
      var st := step(s, events[0]);
      var t := RunWith(step, st.next, events[1..]);
      Trace(t.last, st.effects + t.effects)
  }

  function Run(s: RecorderState, events: seq<Event>): Trace {
    RunWith(Apply, s, events)
  }

  /** A run of `a + b` is the run of `a` followed by the run of `b`. */
  lemma {:induction false} RunWithAppend(step: (RecorderState, Event) -> Step, s: RecorderState, a: seq<Event>, b: seq<Event>)
    ensures var ta := RunWith(step, s, a); var tb := RunWith(step, ta.last, b);
      RunWith(step, s, a + b) == Trace(tb.last, ta.effects + tb.effects)
    decreases |a|
  {
    if a == [] {
      assert a + b == b;
    } else {
      var st := step(s, a[0]);
      assert (a + b)[0] == a[0] && (a + b)[1..] == a[1..] + b;
      RunWithAppend(step, st.next, a[1..], b);
      var ta := RunWith(step, st.next, a[1..]);
      var tb := RunWith(step, ta.last, b);
      assert st.effects + (ta.effects + tb.effects) == (st.effects + ta.effects) + tb.effects;
    }
  }

  lemma RunAppend(s: RecorderState, a: seq<Event>, b: seq<Event>)
    ensures var ta := Run(s, a); var tb := Run(ta.last, b);
      Run(s, a + b) == Trace(tb.last, ta.effects + tb.effects)
  {
    RunWithAppend(Apply, s, a, b);
  }

  function Frames(inputs: seq<FrameInput>): (events: seq<Event>)
    ensures |events| == |inputs|
    ensures forall i :: 0 <= i < |inputs| ==> events[i] == Frame(inputs[i])
  {
    seq(|inputs|, i requires 0 <= i < |inputs| => Frame(inputs[i]))
  }

  function CountEnded(events: seq<Event>): nat {
    if events == [] then 0 else (if events[0].VideoEnded? then 1 else 0) + CountEnded(events[1..])
  }

  function CountDownloads(effects: seq<Effect>): nat {
    if effects == [] then 0
    else (if effects[0].DownloadArtifact? then 1 else 0) + CountDownloads(effects[1..])
  }

  function CountEstimates(effects: seq<Effect>): nat {
    if effects == [] then 0
    else (if effects[0].EstimateFaces? then 1 else 0) + CountEstimates(effects[1..])
  }

  lemma {:induction false} CountDownloadsAppend(a: seq<Effect>, b: seq<Effect>)
    ensures CountDownloads(a + b) == CountDownloads(a) + CountDownloads(b)
  {
    if a != [] {
      assert (a + b)[1..] == a[1..] + b;
      CountDownloadsAppend(a[1..], b);
    } else {
      assert a + b == b;
    }
  }

  lemma {:induction false} CountEstimatesAppend(a: seq<Effect>, b: seq<Effect>)
    ensures CountEstimates(a + b) == CountEstimates(a) + CountEstimates(b)
  {
    if a != [] {
      assert (a + b)[1..] == a[1..] + b;
      CountEstimatesAppend(a[1..], b);
    } else {
      assert a + b == b;
    }
  }

  /** `endedCount` counts the ends of the video and never goes down. */
  lemma {:induction false} EndedCountCountsEnds(s: RecorderState, events: seq<Event>)
    ensures Run(s, events).last.endedCount == s.endedCount + CountEnded(events)
    decreases |events|
  {
    if events != [] {
      EndedCountCountsEnds(Apply(s, events[0]).next, events[1..]);
    }
  }

  /** Without a detector, no later event gets one back and no estimate is
      ever asked for. */
  lemma {:induction false} DetectorLossIsPermanent(s: RecorderState, events: seq<Event>)
    requires s.detector.None?
    ensures Run(s, events).last.detector.None?
    ensures CountEstimates(Run(s, events).effects) == 0
    decreases |events|
  {
    if events != [] {
      var st := Apply(s, events[0]);
      DetectorLossIsPermanent(st.next, events[1..]);
      assert forall i :: 0 <= i < |st.effects| ==> !st.effects[i].EstimateFaces?;
      NoEstimates(st.effects);
      CountEstimatesAppend(st.effects, Run(st.next, events[1..]).effects);
    }
  }

  lemma {:induction false} NoEstimates(effects: seq<Effect>)
    requires forall i :: 0 <= i < |effects| ==> !effects[i].EstimateFaces?
    ensures CountEstimates(effects) == 0
  {
    if effects != [] {
      NoEstimates(effects[1..]);
    }
  }

  /** Whatever happens, the record is handed to the download at most once,
      and never again once the video has ended twice. */
  lemma {:induction false} AtMostOneDownload(s: RecorderState, events: seq<Event>)
    ensures CountDownloads(Run(s, events).effects) <= if s.endedCount < 2 then 1 else 0
    decreases |events|
  {
    if events != [] {
      var st := Apply(s, events[0]);
      var rest := Run(st.next, events[1..]);
      AtMostOneDownload(st.next, events[1..]);
      CountDownloadsAppend(st.effects, rest.effects);
      assert CountDownloads(st.effects) == (if events[0].VideoEnded? && s.endedCount == 1 then 1 else 0) by {
        var e := st.effects;
        if e != [] {
          assert e[1..] == [] || e[1..] == [DrawVideoFrame] || CountDownloads(e[1..]) == 0 by {
            NoDownloadsAfterHead(s, events[0]);
          }
        }
      }
    }
  }

  /** Only the first effect of a handler can be a download. */
  lemma NoDownloadsAfterHead(s: RecorderState, e: Event)
    ensures var effects := Apply(s, e).effects;
      effects != [] ==> CountDownloads(effects[1..]) == 0
  {
    var effects := Apply(s, e).effects;
    if effects != [] {
      assert forall i :: 0 <= i < |effects[1..]| ==> !effects[1..][i].DownloadArtifact?;
      NoDownloadsIn(effects[1..]);
    }
  }

  lemma {:induction false} NoDownloadsIn(effects: seq<Effect>)
    requires forall i :: 0 <= i < |effects| ==> !effects[i].DownloadArtifact?
    ensures CountDownloads(effects) == 0
  {
    if effects != [] {
      NoDownloadsIn(effects[1..]);
    }
  }

  /** `endedCount` is never reset: once the video has ended twice, no later
      event (a newly chosen file included) appends to the timeline, which can
      only stay as it is or be cleared. */
  lemma {:induction false} NothingRecordedAfterSession(s: RecorderState, events: seq<Event>)
    requires s.endedCount >= 2
    ensures var last := Run(s, events).last;
      last.endedCount >= 2 && (last.facesList == s.facesList || last.facesList == [])
    decreases |events|
  {
    if events != [] {
      var next := Apply(s, events[0]).next;
      NothingRecordedAfterSession(next, events[1..]);
      if next.facesList == [] {
        ClearedStaysCleared(next, events[1..]);
      }
    }
  }

  lemma {:induction false} ClearedStaysCleared(s: RecorderState, events: seq<Event>)
    requires s.endedCount >= 2 && s.facesList == []
    ensures Run(s, events).last.facesList == []
    decreases |events|
  {
    if events != [] {
      ClearedStaysCleared(Apply(s, events[0]).next, events[1..]);
    }
  }

  // ---------------------------------------------------------------------
  // One pass over the video

  /** The faces one pass of frame callbacks detects: those of each successful
      estimate, up to the first throw, and none without a detector. */
  function Detections(detector: Option<Detector>, inputs: seq<FrameInput>): (found: FacesTimeline)
    ensures detector.None? ==> found == []
    ensures |found| <= |inputs|
    ensures forall j :: 0 <= j < |found| ==> inputs[j].estimate == Detected(found[j])
    ensures detector.Some? && |found| < |inputs| ==> inputs[|found|].estimate.EstimateThrew?
  {
    if detector.None? || inputs == [] then []
    else match inputs[0].estimate
      case Detected(faces) => [faces] + Detections(detector, inputs[1..])
      case EstimateThrew => []
  }

  /** The detector left after one pass. */
  function DetectorAfter(detector: Option<Detector>, inputs: seq<FrameInput>): (left: Option<Detector>)
    ensures left.Some? ==> left == detector
    ensures left.Some? <==> detector.Some? && forall i :: 0 <= i < |inputs| ==> inputs[i].estimate.Detected?
  {
    if detector.None? || inputs == [] then detector
    else if inputs[0].estimate.EstimateThrew? then None
    else DetectorAfter(detector, inputs[1..])
  }

  /** A pass of frame callbacks appends its detections to the timeline when
      it is the second pass, and appends nothing otherwise. */
  lemma {:induction false} PassAppendsDetections(s: RecorderState, inputs: seq<FrameInput>)
    ensures var last := Run(s, Frames(inputs)).last;
      && last.endedCount == s.endedCount
      && last.selected == s.selected
      && last.detector == DetectorAfter(s.detector, inputs)
      && last.facesList == s.facesList + (if s.endedCount == 1 then Detections(s.detector, inputs) else [])
    decreases |inputs|
  {
    if inputs != [] {
      var events := Frames(inputs);
      assert events[1..] == Frames(inputs[1..]);
      var st := Apply(s, events[0]);
      PassAppendsDetections(st.next, inputs[1..]);
      if s.detector.Some? && inputs[0].estimate.EstimateThrew? {
        DetectorStaysLost(st.next, inputs[1..]);
      }
      if s.detector.Some? && inputs[0].estimate.Detected? && s.endedCount == 1 {
        assert s.facesList + [inputs[0].estimate.faces] + Detections(s.detector, inputs[1..])
          == s.facesList + Detections(s.detector, inputs);
      }
    }
  }

  lemma {:induction false} DetectorStaysLost(s: RecorderState, inputs: seq<FrameInput>)
    requires s.detector.None?
    ensures Detections(s.detector, inputs) == [] && DetectorAfter(s.detector, inputs) == None
  {
  }

  /** With a detector that never throws, every frame callback of the pass
      contributes exactly one entry. */
  lemma {:induction false} ReliableDetectorRecordsEveryFrame(detector: Option<Detector>, inputs: seq<FrameInput>)
    requires detector.Some?
    requires forall i :: 0 <= i < |inputs| ==> inputs[i].estimate.Detected?
    ensures |Detections(detector, inputs)| == |inputs|
    ensures forall i :: 0 <= i < |inputs| ==> Detections(detector, inputs)[i] == inputs[i].estimate.faces
    ensures DetectorAfter(detector, inputs) == detector
    decreases |inputs|
  {
    if inputs != [] {
      ReliableDetectorRecordsEveryFrame(detector, inputs[1..]);
    }
  }

  /** A whole recording session: choose a file, play it once, let it end,
      play it again, let it end. The last call is the download of exactly
      the second pass's detections, under the file's name. */
  lemma RecordingSession(s: RecorderState, file: File, pass1: seq<FrameInput>, pass2: seq<FrameInput>)
    requires s.endedCount == 0
    ensures var t := Run(s, [FileChanged(true, Some(file))] + Frames(pass1) + [VideoEnded] + Frames(pass2) + [VideoEnded]);
      && t.last.endedCount == 2
      && t.effects != []
      && t.effects[|t.effects| - 1].DownloadArtifact?
      && t.effects[|t.effects| - 1].fileName == ArtifactName(file.name)
      && t.effects[|t.effects| - 1].record.facesList == Detections(DetectorAfter(s.detector, pass1), pass2)
  {
    var s1 := FileChange(s, true, Some(file)).next;
    var head := [FileChanged(true, Some(file))];
    RunAppend(s, head, Frames(pass1));
    var s2 := Run(s1, Frames(pass1)).last;
    PassAppendsDetections(s1, pass1);
    RunAppend(s, head + Frames(pass1), [VideoEnded]);
    var s3 := Ended(s2).next;
    assert Run(s2, [VideoEnded]).last == s3;
    RunAppend(s, head + Frames(pass1) + [VideoEnded], Frames(pass2));
    var s4 := Run(s3, Frames(pass2)).last;
    PassAppendsDetections(s3, pass2);
    RunAppend(s, head + Frames(pass1) + [VideoEnded] + Frames(pass2), [VideoEnded]);
    var final := Ended(s4);
    assert Run(s4, [VideoEnded]) == Trace(final.next, final.effects);
  }

  // ---------------------------------------------------------------------
  // The recorder object

  class RecorderApp {
    var endedCount: nat
    var facesList: FacesTimeline
    var detector: Option<Detector>
    var canvasWidth: nat
    var canvasHeight: nat
    /** The selection of the page's file input. */
    var selected: Option<File>
    /** Every call made so far on the video, the detector and the download. */
    var effects: seq<Effect>

    ghost function State(): RecorderState
      reads this
    {
      RecorderState(endedCount, facesList, detector, canvasWidth, canvasHeight, selected)
    }

    constructor (canvasWidth: nat, canvasHeight: nat)
      ensures facesList == [] && endedCount == 0 && detector == None && selected == None
      ensures State() == Initial(canvasWidth, canvasHeight, None) && effects == []
    {
      endedCount := 0;
      facesList := [];
      detector := None;
      this.canvasWidth := canvasWidth;
      this.canvasHeight := canvasHeight;
      selected := None;
      effects := [];
    }

    /** The outcome of creating the detector: the detector, or None when
        creation failed. */
    method SetupDetector(created: Option<Detector>)
      modifies this`detector, this`effects
      ensures detector == created
      ensures effects == old(effects) + if created.None? then [LogError] else []
    {
      detector := created;
      if created.None? {
        effects := effects + [LogError];
      }
    }

    method OnRequestVideoFrame(width: nat, height: nat, estimate: Estimate) returns (completion: Completion)
      modifies this
      ensures var st := FrameCallback(old(State()), width, height, estimate);
        State() == st.next && effects == old(effects) + st.effects && completion == st.completion
      ensures facesList ==
        if old(endedCount) == 1 && old(detector).Some? && estimate.Detected?
        then old(facesList) + [estimate.faces] else old(facesList)
      ensures old(detector).None? ==> completion == Threw(DETECTOR_NULL) && detector.None?
      ensures old(detector).Some? && estimate.EstimateThrew? ==>
        detector.None? && DisposeDetector(old(detector).value) in effects[|old(effects)|..]
      ensures endedCount == old(endedCount) && selected == old(selected)
    {
      effects := effects + [RequestVideoFrameCallback];
      canvasWidth := width;
      canvasHeight := height;
      effects := effects + [DrawVideoFrame];
      if detector.None? {
        return Threw(DETECTOR_NULL);
      }
      var d := detector.value;
      effects := effects + [EstimateFaces(d)];
      completion := Done;
      match estimate
      case Detected(faces) =>
        effects := effects + [DrawFaces(faces)];
        if endedCount == 1 {
          facesList := facesList + [faces];
        }
      case EstimateThrew =>
        effects := effects + [DisposeDetector(d)];
        detector := None;
        effects := effects + [LogError];
    }

    method OnFileChange(frameCallbackSupported: bool, selection: Option<File>) returns (completion: Completion)
      modifies this
      ensures var st := FileChange(old(State()), frameCallbackSupported, selection);
        State() == st.next && effects == old(effects) + st.effects && completion == st.completion
      ensures facesList == if frameCallbackSupported && selection.Some? then [] else old(facesList)
      ensures endedCount == old(endedCount) && detector == old(detector)
    {
      selected := selection;
      if !frameCallbackSupported {
        return Threw(NO_FRAME_CALLBACK);
      }
      effects := effects + [RequestVideoFrameCallback];
      if selection.Some? {
        effects := effects + [RevokeSource, SetSource(selection.value)];
        facesList := [];
        effects := effects + [PlayVideo];
      }
      completion := Done;
    }

    method OnEnded()
      modifies this
      ensures var st := Ended(old(State()));
        State() == st.next && effects == old(effects) + st.effects
      ensures endedCount == old(endedCount) + 1
      ensures facesList == old(facesList) && detector == old(detector)
      ensures endedCount == 2 ==>
        effects == old(effects) + [DownloadArtifact(DownloadName(selected),
                                                    SessionRecord(VideoSize(canvasWidth, canvasHeight), facesList))]
      ensures endedCount != 2 ==>
        effects == old(effects) + [LoadVideo, SetPlaybackRate(RECORDER_PLAYBACK_RATE), PlayVideo]
    {
      endedCount := endedCount + 1;
      if endedCount == 2 {
        var fileName := DEFAULT_FILE_NAME;
        if selected.Some? {
          fileName := selected.value.name;
        }
        var record := SessionRecord(VideoSize(canvasWidth, canvasHeight), facesList);
        effects := effects + [DownloadArtifact(ArtifactName(fileName), record)];
      } else {
        effects := effects + [LoadVideo, SetPlaybackRate(RECORDER_PLAYBACK_RATE), PlayVideo];
      }
    }
  }
}
