/** Small failure-compatible wrappers shared by the recorder and the player. */
module Wrappers {

  datatype Option<+T> = None | Some(value: T)

  /** How an event handler ends: normally, or with an error thrown (or a
      promise rejected) carrying the error's message. */
  datatype Completion = Done | Threw(message: string)
}

/** The data the detector produces and the recorder persists. */
module Landmarks {

  /** One tracked facial point: pixel position in the source frame and a
      relative depth. Coordinates are exact reals, not floats. */
  datatype Keypoint = Keypoint(x: real, y: real, z: real)

  datatype Box = Box(xMin: real, yMin: real, width: real, height: real)

  /** One detected face in one frame. */
  datatype Face = Face(box: Box, keypoints: seq<Keypoint>)

  /** All faces detected in one video frame. */
  type FrameFaces = seq<Face>

  /** One entry per recorded frame, in recording order. */
  type FacesTimeline = seq<FrameFaces>

  datatype VideoSize = VideoSize(width: nat, height: nat)

  /** The persisted session record `{video: {width, height}, facesList}`. */
  datatype SessionRecord = SessionRecord(video: VideoSize, facesList: FacesTimeline)

  /** Extension of a session artifact: a gzip-compressed BSON document. */
  const ARTIFACT_EXTENSION: string := ".bson.gz"

  /** Name of the artifact recorded for, and fetched beside, the video `base`. */
  function ArtifactName(base: string): (name: string)
    ensures |name| == |base| + |ARTIFACT_EXTENSION|
    ensures name[..|base|] == base
    ensures name[|base|..] == ARTIFACT_EXTENSION
  {
    base + ARTIFACT_EXTENSION
  }

  /** Stripping the extension from an artifact name gives back the video's name. */
  lemma ArtifactNameInjective(a: string, b: string)
    requires ArtifactName(a) == ArtifactName(b)
    ensures a == b
  {
  }
}
