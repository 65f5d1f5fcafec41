# Face overlay pipeline: face mesh, landmark recorder, landmark player

This project models the non-rendering logic of a browser pipeline that lays a
textured 3-D face mesh over facial landmarks. It covers three components:

- **FaceObject** (`face_object.dfy`) is the face object. It holds two meshes
  over the detector's fixed face topology: a translucent "real" mesh textured
  with the live source video, and an opaque placeholder mesh.
  - The triangle index list drops mouth-interior triangles. A triangle is
    dropped when all three of its vertices lie on some lips connection.
  - The real mesh's vertex alpha is 0 on the face oval and 1 elsewhere.
  - Landmarks map to scene positions `x, height - y, -z`.
  - Landmarks map to texture coordinates `x / w, 1 - y / h`. Here `w` is
    `videoWidth`, or 1280 while it is 0, and `h` is `videoHeight`, or 720
    while it is 0; each dimension falls back on its own.
  - The `isReal` flag picks which of the two meshes is visible.

  The buffer-building loops are methods that return the buffers they build.
  Each is proved against a predicate that says what every entry holds. The
  meshes and the face object are classes whose methods update their fields.
- **Recorder** (`recorder.dfy`) is the recorder, which runs the detector on
  every frame of an uploaded video.
  - It plays the video twice and keeps the detections of the second,
    half-speed pass.
  - At the second end of the video it hands the record
    `{video: {width, height}, facesList}` to the download, under the name
    `<file name>.bson.gz`.
  - A detector that throws is disposed of and dropped for good.

  Each event handler is a function from the recorder's state to the next
  state, the calls it makes (an `Effect` log, in order) and how it completes.
  The class `RecorderApp` implements the handlers and is proved equal to
  those functions. Lemmas over whole runs of events state the two-pass
  behaviour.
- **Playback** (`player.dfy`) is the player.
  - It loads a recorded session and replays it.
  - A frame counter is rewound by `play` and advanced once per video-frame
    callback.
  - The recorded faces are looked up only when the counter is in range.
  - It keeps the handle of its frame callback. The video element's registry
    of pending callbacks is modelled, and the invariant says the pending
    callbacks are exactly the kept handle, or none when no handle is kept:
    at most one callback is ever pending. Exactly one is pending after
    `play` and after each frame callback; none after the video ends.

`landmarks.dfy` holds the shared data model: keypoints, faces, the timeline,
the session record and the artifact name. Coordinates are exact `real`s. The
library constants are a `Topology` parameter: the tessellation index list,
the lips and face-oval connections, and the keypoint count. The detector's
answer to each frame is an input: faces, or a throw. Whether the browser
supports frame callbacks and what the decoder returned are inputs too.

Notes on the code's behaviour:
- The player finds the frame by a frame counter; playback time is not used.
- The player stores the decoded record's `facesList` without checking that
  it is present.
- The recorder never resets `endedCount`. So once a session has been
  downloaded, a newly chosen file is played but never recorded
  (`NothingRecordedAfterSession`).

## Model

| member | source | states |
|---|---|---|
| `Landmarks.ArtifactName` | src/js/RecorderApp.ts:201 | the artifact name is the base name followed by `.bson.gz`; the first `|base|` characters give the base back |
| `FaceObject.WithoutLipTriangles` | src/js/FaceObject3D.ts:50-58 | the filtered index list has a length that is a multiple of 3 and at most the input's length |
| `FaceObject.KeptTrianglesAreTheNonLipOnes` | src/js/FaceObject3D.ts:51-57 | triangle k is kept if and only if one of its vertices is on no lips connection; the kept triangle numbers are in range and strictly increasing |
| `FaceObject.WithoutLipTrianglesKeepsWholeTriangles` | src/js/FaceObject3D.ts:50-58 | the filtered list is exactly the kept triangles, each whole, in their original order (triangle j of the output is kept triangle j of the input) |
| `FaceObject.BuildIndexList` | src/js/FaceObject3D.ts:50-57 | the loop that walks the list three at a time returns the filtered index list |
| `FaceObject.ZeroAttribute` | src/js/FaceObject3D.ts:59-68 | a fresh buffer holds `itemSize * count` entries, all zero |
| `FaceObject.OvalFadeColors` | src/js/FaceObject3D.ts:84-92 | the colour buffer holds 4 entries per keypoint; RGB is always 1; alpha is 0 exactly for the vertices on a face-oval connection and 1 otherwise |
| `FaceObject.PositionList` | src/js/FaceObject3D.ts:112-115 | the position buffer holds 3 entries per keypoint: `x`, `height - y`, `-z` |
| `FaceObject.ScenePositionsRecoverKeypoints` | src/js/FaceObject3D.ts:114 | each keypoint can be read back from its scene position (the mapping is invertible) |
| `FaceObject.TextureExtent` | src/js/FaceObject3D.ts:132-133 | the divisor is the reported size when that is not 0, else the fallback, and is never 0 |
| `FaceObject.UvList` | src/js/FaceObject3D.ts:134-140 | the uv buffer holds 2 entries per keypoint: `x / w`, `1 - y / h` |
| `FaceObject.TextureCoordsInUnitSquare` | src/js/FaceObject3D.ts:136-139 | a landmark inside the w x h frame gets texture coordinates in the unit square, and the coordinates give its pixel position back |
| `FaceObject.FaceMesh.constructor` | src/js/FaceObject3D.ts:71-74 | a new mesh has the given geometry and material, no colours, no texture map, and is visible |
| `FaceObject.CreateFaceMesh` | src/js/FaceObject3D.ts:48-75 | a fresh mesh has the lip-free index list, `3n` zero positions and `2n` zero texture coordinates |
| `FaceObject.CreateRealFaceMesh` | src/js/FaceObject3D.ts:76-95 | the real mesh is a fresh mesh with the textured material and the oval-fade colour buffer |
| `FaceObject.CreatePlaceholderFaceMesh` | src/js/FaceObject3D.ts:96-105 | the placeholder is a fresh mesh with the standard material and no colours |
| `FaceObject.FaceObject3D.constructor` | src/js/FaceObject3D.ts:15-35 | both meshes are fresh and distinct with fresh geometry; `isReal` starts false, so only the placeholder is visible |
| `FaceObject.FaceObject3D.ExactlyOneVisible` | src/js/FaceObject3D.ts:151-156 | in every valid state exactly one of the two meshes is visible |
| `FaceObject.FaceObject3D.UpdateFaceGeometry` | src/js/FaceObject3D.ts:107-124 | both meshes receive the face's scene positions (`3 * |keypoints|` entries); the invariant is kept and nothing else changes |
| `FaceObject.FaceObject3D.UpdateFaceMaterial` | src/js/FaceObject3D.ts:125-147 | only the real mesh's uv buffer and texture map change: the uv buffer holds the face's texture coordinates over the fallback-corrected video size, and the map is the source-video texture; the placeholder is unchanged |
| `FaceObject.FaceObject3D.SetIsReal` | src/js/FaceObject3D.ts:151-156 | after setting, `isReal` holds the new value, the real mesh is visible exactly when it is true and the placeholder exactly when it is false |
| `Recorder.FrameCallback` | src/js/RecorderApp.ts:125-153 | one frame callback sets the canvas to the frame size and appends exactly the detected faces when the detector exists, the detection succeeds and `endedCount == 1` (otherwise the timeline is unchanged); a throw disposes of the detector and nulls it; with no detector it fails with "detector is null" after only requesting the next callback and drawing; `endedCount` and the selection are kept |
| `Recorder.FileChange` | src/js/RecorderApp.ts:155-174 | without frame-callback support the handler fails and makes no call; otherwise it first requests a frame callback, and a chosen file is set as the source and played with the timeline cleared; with no file nothing else happens; `endedCount`, the detector and the canvas are kept |
| `Recorder.Ended` | src/js/RecorderApp.ts:175-208 | `endedCount` grows by 1 and nothing else changes; the download happens exactly when the count reaches 2, and it is then the only call, of `{video: canvas size, facesList}` under the download name; otherwise the video is reloaded and replayed at rate 0.5 |
| `Recorder.DownloadName` | src/js/RecorderApp.ts:195-201 | the download name is the selected file's name plus `.bson.gz`, or `download.bson.gz` when no file is selected |
| `Recorder.FrameCallbackRequestsNextFirst` | src/js/RecorderApp.ts:125-139 | a frame callback first requests the next callback; any detector call comes after it |
| `Recorder.EndedCountCountsEnds` | src/js/RecorderApp.ts:177 | over any run, `endedCount` grows by exactly the number of "ended" events and never decreases |
| `Recorder.DetectorLossIsPermanent` | src/js/RecorderApp.ts:132-150 | once the detector is null it stays null for every later event, and no detector call is ever made again |
| `Recorder.AtMostOneDownload` | src/js/RecorderApp.ts:177-206 | over any run the record is downloaded at most once, and never once the video has already ended twice |
| `Recorder.NothingRecordedAfterSession` | src/js/RecorderApp.ts:143-177 | once the video has ended twice, no later event appends to the timeline; it stays as it is or is cleared by a new file |
| `Recorder.Detections` | src/js/RecorderApp.ts:136-150 | the faces one pass detects are the faces of its leading successful estimates, in order, stopping exactly at the first throw; none without a detector |
| `Recorder.DetectorAfter` | src/js/RecorderApp.ts:146-149 | after a pass the detector is kept if and only if it existed and no estimate threw; otherwise it is null |
| `Recorder.PassAppendsDetections` | src/js/RecorderApp.ts:125-151 | a run of frame callbacks keeps `endedCount` and the selection; it appends its detections (the faces of each success, up to the first throw) when `endedCount == 1`, and nothing otherwise |
| `Recorder.ReliableDetectorRecordsEveryFrame` | src/js/RecorderApp.ts:143-145 | with a detector that never throws, the pass appends one entry per frame callback, equal to that frame's detection, and the detector stays |
| `Recorder.RecordingSession` | src/js/RecorderApp.ts:155-206 | choose a file, play, end, play again, end: the last call is the download, under `<file name>.bson.gz`, of exactly the second pass's detections, and `endedCount` is 2 |
| `Recorder.RecorderApp.constructor` | src/js/RecorderApp.ts:57-60 | a new recorder has an empty timeline, `endedCount == 0`, no detector and no calls made |
| `Recorder.RecorderApp.SetupDetector` | src/js/RecorderApp.ts:79-97 | the detector becomes the created one; when creation failed it is null and the error is logged |
| `Recorder.RecorderApp.OnRequestVideoFrame` | src/js/RecorderApp.ts:125-153 | the new state and calls are those of `FrameCallback`: the timeline grows by the faces only in the second pass after a success; with no detector the callback fails with "detector is null"; a throwing detector is disposed of and nulled |
| `Recorder.RecorderApp.OnFileChange` | src/js/RecorderApp.ts:155-174 | the new state and calls are those of `FileChange`: a chosen file clears the timeline; `endedCount` and the detector are unchanged; without frame-callback support it fails |
| `Recorder.RecorderApp.OnEnded` | src/js/RecorderApp.ts:175-208 | `endedCount` grows by 1; at 2 the only call is the download of `{video: canvas size, facesList}`; otherwise the video is reloaded and replayed at rate 0.5 |
| `Playback.Player.AtMostOneCallbackPending` | src/js/Player.ts:78-83 | in every valid state at most one frame callback is pending |
| `Playback.Player.constructor` | src/js/Player.ts:18-24 | a new player has `currentIndex == 0`, no callback handle, an empty timeline and nothing pending |
| `Playback.Player.RequestFrameCallback` | src/js/Player.ts:82 | registering gives a new handle, which becomes the one pending callback and the kept handle |
| `Playback.Player.CancelPendingCallback` | src/js/Player.ts:78-81 | a pending callback is cancelled and its handle forgotten; afterwards nothing is pending |
| `Playback.Player.LoadAsync` | src/js/Player.ts:39-53 | the record is fetched from `<video url>.bson.gz`; on success the timeline is the decoded record's `facesList` and the video source is set; on failure it rejects and the timeline is unchanged |
| `Playback.Player.Play` | src/js/Player.ts:72-84 | the video is reloaded and played; a pending callback is cancelled before the new one is registered; the counter is 0 and exactly one callback is pending; without frame-callback support it throws with nothing else changed |
| `Playback.Player.OnRequestVideoFrame` | src/js/Player.ts:86-104 | the callback registers its successor (the handle is non-null), draws the recorded faces at the counter only when it is in range and logs out-of-bounds otherwise, and advances the counter by exactly 1 |
| `Playback.Player.OnEnded` | src/js/Player.ts:105-111 | a pending callback is cancelled; afterwards the handle is null and nothing is pending |
| `Playback.RecorderNamesWhatPlayerFetches` | src/js/Player.ts:40-41 | the artifact the recorder downloads for a video file is the one the player fetches beside a video of that name |

## Left out

- BSON serialisation and gzip compression are library calls. The record is handed to the download as a value, and the player receives the decoded record (or a failure) as an input.
- The landmark detector, its creation and its WebAssembly paths are left out. Creation is an input of `SetupDetector`, and each `estimateFaces` answer is an input of the frame callback.
- The engine's meshes, materials, textures and dispose helpers are plain fields (buffers, visibility, material kind, whether the map is bound). `FaceObject3D.destroy` only calls these dispose helpers and is not modelled.
- `FaceObject.FaceObject3D.UpdateFaceGeometry`: the recomputation of vertex normals and the `needsUpdate` upload flags are not modelled, because both belong to the rendering engine.
- `FaceObject.BuildIndexList`: requires the tessellation list's length to be a multiple of 3, which holds for the library's triangle list. The code's behaviour on a trailing partial triangle (undefined indices) is not modelled.
- Canvas drawing (frames, boxes, wireframes) is recorded only as `DrawVideoFrame` and `DrawFaces` calls. Console logging is recorded only where it marks an error path.
- Asynchrony is not modelled: each handler is one atomic step. This leaves out the wait for the recorder's setup promise before a file change is handled, the one-second delay before the player's first `play`, and interleaved detector calls.
- The recorder keeps no callback handles, and the model does not count how many frame-callback chains are live. Each file change starts one more chain.
- `Playback.Player.LoadAsync` takes the site root as a parameter, and the video path `movie/kari.mp4` is a constant. A decoded record without a `facesList` field is not modelled.
- Webcam setup, the live tracking loop, the page start-up, the download helper and the build configuration are not part of this model.
