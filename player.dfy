/** The recorded-landmark player: loads a session record, plays its video and,
    on every video frame, draws the faces recorded for that frame, found by
    a frame counter. It keeps the handle of its one pending frame callback.
    The video element's callback registry (which handles are pending, and
    the next handle it will give out) is part of the model so that the
    "one pending callback" property can be stated. */
module Playback {
  import opened Wrappers
  import opened Landmarks
  import Recorder

  /** Path of the played video below the site root. */
  const MOVIE_PATH: string := "movie/kari.mp4"
  const NO_FRAME_CALLBACK: string := "no requestVideoFrameCallback"

  /** The calls the player makes on the network, the video and the canvas. */
  datatype Effect =
    | Fetch(url: string)
    | SetSource(url: string)
    | LoadVideo
    | PlayVideo
    | RequestVideoFrameCallback(handle: nat)
    | CancelVideoFrameCallback(handle: nat)
    | DrawVideoFrame
    | DrawFaces(faces: FrameFaces)
    | LogOutOfBounds(index: nat, length: nat)

  class Player {
    var currentIndex: nat
    var handleVideoFrameCallback: Option<nat>
    var facesList: FacesTimeline
    var canvasWidth: nat
    var canvasHeight: nat
    /** The video element's pending frame callbacks. */
    var pendingCallbacks: set<nat>
    /** The handle the video element gives to the next callback it registers. */
    var nextHandle: nat
    /** Every call made so far. */
    var effects: seq<Effect>

    /** The only pending frame callback is the one whose handle is kept. */
    ghost predicate Valid()
      reads this
    {
      && pendingCallbacks == (if handleVideoFrameCallback.Some? then {handleVideoFrameCallback.value} else {})
      && forall h :: h in pendingCallbacks ==> h < nextHandle
    }

    lemma AtMostOneCallbackPending()
      requires Valid()
      ensures |pendingCallbacks| <= 1
    {
    }

    constructor ()
      ensures Valid()
      ensures currentIndex == 0 && handleVideoFrameCallback == None && facesList == []
      ensures pendingCallbacks == {} && effects == []
    {
      currentIndex := 0;
      handleVideoFrameCallback := None;
      facesList := [];
      canvasWidth, canvasHeight := 0, 0;
      pendingCallbacks := {};
      nextHandle := 0;
      effects := [];
    }

    /** Registers the frame callback with the video and keeps its handle. */
    method RequestFrameCallback()
      requires Valid() && handleVideoFrameCallback == None
      modifies this`pendingCallbacks, this`nextHandle, this`handleVideoFrameCallback, this`effects
      ensures Valid()
      ensures handleVideoFrameCallback == Some(old(nextHandle)) && pendingCallbacks == {old(nextHandle)}
      ensures nextHandle == old(nextHandle) + 1
      ensures effects == old(effects) + [RequestVideoFrameCallback(old(nextHandle))]
    {
      var handle := nextHandle;
      nextHandle := nextHandle + 1;
      pendingCallbacks := pendingCallbacks + {handle};
      effects := effects + [RequestVideoFrameCallback(handle)];
      handleVideoFrameCallback := Some(handle);
    }

    /** Cancels the pending frame callback, if any, and forgets its handle. */
    method CancelPendingCallback()
      requires Valid()
      modifies this`pendingCallbacks, this`handleVideoFrameCallback, this`effects
      ensures Valid() && handleVideoFrameCallback == None && pendingCallbacks == {}
      ensures effects == old(effects) +
        if old(handleVideoFrameCallback).Some?
        then [CancelVideoFrameCallback(old(handleVideoFrameCallback).value)] else []
    {
      if handleVideoFrameCallback.Some? {
        var handle := handleVideoFrameCallback.value;
        pendingCallbacks := pendingCallbacks - {handle};
        effects := effects + [CancelVideoFrameCallback(handle)];
        handleVideoFrameCallback := None;
      }
    }

    /** Fetches the record beside the video under `relRoot`; `decoded` is what
        decompressing and decoding it gave, or None when the fetch, the
        decompression or the decoding failed. */
    method LoadAsync(relRoot: string, decoded: Option<SessionRecord>) returns (completion: Completion)
      modifies this`facesList, this`effects
      ensures decoded.Some? ==> completion == Done && facesList == decoded.value.facesList
      ensures decoded.Some? ==>
        effects == old(effects) + [Fetch(ArtifactName(relRoot + MOVIE_PATH)), SetSource(relRoot + MOVIE_PATH)]
      ensures decoded.None? ==> completion.Threw? && facesList == old(facesList)
      ensures decoded.None? ==> effects == old(effects) + [Fetch(ArtifactName(relRoot + MOVIE_PATH))]
    {
      var mp4Url := relRoot + MOVIE_PATH;
      effects := effects + [Fetch(ArtifactName(mp4Url))];
      if decoded.None? {
        return Threw("session record could not be loaded");
      }
      facesList := decoded.value.facesList;
      effects := effects + [SetSource(mp4Url)];
      completion := Done;
    }

    /** Restarts the video, replaces any pending frame callback by a new one
        and rewinds the frame counter. */
    method Play(frameCallbackSupported: bool) returns (completion: Completion)
      requires Valid()
      modifies this`pendingCallbacks, this`nextHandle, this`handleVideoFrameCallback, this`effects, this`currentIndex
      ensures Valid() && facesList == old(facesList)
      ensures !frameCallbackSupported ==>
        && completion == Threw(NO_FRAME_CALLBACK)
        && effects == old(effects) + [LoadVideo, PlayVideo]
        && handleVideoFrameCallback == old(handleVideoFrameCallback)
        && pendingCallbacks == old(pendingCallbacks)
        && nextHandle == old(nextHandle)
        && currentIndex == old(currentIndex)
      ensures frameCallbackSupported ==>
        && completion == Done
        && currentIndex == 0
        && handleVideoFrameCallback == Some(old(nextHandle))
        && pendingCallbacks == {old(nextHandle)}
        && effects == old(effects) + [LoadVideo, PlayVideo] +
             (if old(handleVideoFrameCallback).Some?
              then [CancelVideoFrameCallback(old(handleVideoFrameCallback).value)] else []) +
             [RequestVideoFrameCallback(old(nextHandle))]
    {
      effects := effects + [LoadVideo, PlayVideo];
      if !frameCallbackSupported {
        return Threw(NO_FRAME_CALLBACK);
      }
      CancelPendingCallback();
      RequestFrameCallback();
      currentIndex := 0;
      completion := Done;
    }

    /** The video fires the pending callback `fired` for a `width` x `height`
        frame: the player registers its next callback, draws the frame and the
        faces recorded at the counter when the counter is in range (an
        out-of-bounds message otherwise), and advances the counter. */
    method OnRequestVideoFrame(fired: nat, width: nat, height: nat)
      requires Valid() && fired in pendingCallbacks
      modifies this
      ensures Valid() && facesList == old(facesList)
      ensures handleVideoFrameCallback == Some(old(nextHandle)) && pendingCallbacks == {old(nextHandle)}
      ensures currentIndex == old(currentIndex) + 1
      ensures canvasWidth == width && canvasHeight == height
      ensures effects == old(effects) + [RequestVideoFrameCallback(old(nextHandle)), DrawVideoFrame] +
        if old(currentIndex) < |facesList|
        then [DrawFaces(facesList[old(currentIndex)])]
        else [LogOutOfBounds(old(currentIndex), |facesList|)]
    {
      // The video drops a callback once it has fired; the handle kept for it
      // is overwritten by the next registration.
      pendingCallbacks := pendingCallbacks - {fired};
      handleVideoFrameCallback := None;
      RequestFrameCallback();
      canvasWidth := width;
      canvasHeight := height;
      effects := effects + [DrawVideoFrame];
      if currentIndex < |facesList| {
        var faces := facesList[currentIndex];
        effects := effects + [DrawFaces(faces)];
      } else {
        effects := effects + [LogOutOfBounds(currentIndex, |facesList|)];
      }
      currentIndex := currentIndex + 1;
    }

    /** The video ended: the pending frame callback, if any, is cancelled. */
    method OnEnded()
      requires Valid()
      modifies this`pendingCallbacks, this`handleVideoFrameCallback, this`effects
      ensures Valid() && handleVideoFrameCallback == None && pendingCallbacks == {}
      ensures effects == old(effects) +
        if old(handleVideoFrameCallback).Some?
        then [CancelVideoFrameCallback(old(handleVideoFrameCallback).value)] else []
    {
      CancelPendingCallback();
    }
  }

  /** The record the recorder downloads for a video file is the one the
      player fetches beside a video of the same name. */
  lemma RecorderNamesWhatPlayerFetches(videoName: string)
    ensures Recorder.DownloadName(Wrappers.Some(Recorder.File(videoName))) == ArtifactName(videoName)
  {
  }
}
