/** The face object: a pair of meshes over the detector's fixed face topology,
    one textured with the live source video and one opaque placeholder,
    updated every frame from landmark data. */
module FaceObject {
  import opened Landmarks

  /** Canonical video size, the fallback while the source video reports 0 x 0. */
  const VIDEO_WIDTH: nat := 1280
  const VIDEO_HEIGHT: nat := 720

  /** An edge of the landmark graph, as the face-mesh library lists them. */
  datatype Connection = Connection(from: nat, to: nat)

  /** The library's constants: the tessellation as a flat triangle index list,
      the lips and face-oval connections, and the number of keypoints. */
  datatype Topology = Topology(
    faceIndexList: seq<nat>,
    lips: seq<Connection>,
    faceOval: seq<Connection>,
    numKeypoints: nat)

  // ---------------------------------------------------------------------
  // Mouth-interior exclusion

  /** Vertex `v` is an end of some connection in `connections`. */
  predicate Touches(connections: seq<Connection>, v: nat) {
    exists k :: 0 <= k < |connections| && (connections[k].from == v || connections[k].to == v)
  }

  /** Every vertex of `triangle` belongs to some lips connection. */
  predicate IsLipTriangle(triangle: seq<nat>, lips: seq<Connection>) {
    forall v :: v in triangle ==> Touches(lips, v)
  }

  /** Triangle number `k` of a flat index list. */
  function TriangleAt(list: seq<nat>, k: nat): (t: seq<nat>)
    requires 3 * k + 3 <= |list|
    ensures |t| == 3
  {
    list[3 * k .. 3 * k + 3]
  }

  /** The index list with every lip triangle dropped, the others kept whole. */
  function WithoutLipTriangles(list: seq<nat>, lips: seq<Connection>): (r: seq<nat>)
    requires |list| % 3 == 0
    ensures |r| % 3 == 0 && |r| <= |list|
    decreases |list|
  {
    if list == [] then []
    else
      var n := |list|;
      var rest := WithoutLipTriangles(list[..n - 3], lips);
      if IsLipTriangle(list[n - 3..], lips) then rest else rest + list[n - 3..]
  }

  /** The numbers, in increasing order, of the triangles that are kept. */
  ghost function KeptTriangles(list: seq<nat>, lips: seq<Connection>): seq<nat>
    requires |list| % 3 == 0
    decreases |list|
  {
    if list == [] then []
    else
      var m := |list| / 3 - 1;
      var rest := KeptTriangles(list[..3 * m], lips);
      if IsLipTriangle(TriangleAt(list, m), lips) then rest else rest + [m]
  }

  /** A triangle is kept exactly when one of its vertices is on no lips
      connection; the kept numbers are in range and strictly increasing. */
  lemma {:induction false} KeptTrianglesAreTheNonLipOnes(list: seq<nat>, lips: seq<Connection>)
    requires |list| % 3 == 0
    ensures var ks := KeptTriangles(list, lips);
      && (forall j :: 0 <= j < |ks| ==> ks[j] < |list| / 3)
      && (forall i, j :: 0 <= i < j < |ks| ==> ks[i] < ks[j])
      && (forall k :: 0 <= k < |list| / 3 ==>
            (k in ks <==> !IsLipTriangle(TriangleAt(list, k), lips)))
    decreases |list|
  {
    if list != [] {
      var m := |list| / 3 - 1;
      var prefix := list[..3 * m];
      KeptTrianglesAreTheNonLipOnes(prefix, lips);
      forall k | 0 <= k < m ensures TriangleAt(prefix, k) == TriangleAt(list, k) {
      }
    }
  }

  /** The filtered list is the concatenation, in order, of the kept triangles. */
  lemma {:induction false} WithoutLipTrianglesKeepsWholeTriangles(list: seq<nat>, lips: seq<Connection>)
    requires |list| % 3 == 0
    ensures var r, ks := WithoutLipTriangles(list, lips), KeptTriangles(list, lips);
      && |r| == 3 * |ks|
      && forall j :: 0 <= j < |ks| ==>
           ks[j] < |list| / 3 && TriangleAt(r, j) == TriangleAt(list, ks[j])
    decreases |list|
  {
    if list != [] {
      var n := |list|;
      var m := n / 3 - 1;
      var prefix := list[..n - 3];
      assert 3 * m == n - 3;
      WithoutLipTrianglesKeepsWholeTriangles(prefix, lips);
      var rest, ks := WithoutLipTriangles(prefix, lips), KeptTriangles(prefix, lips);
      assert TriangleAt(list, m) == list[n - 3..];
      forall j | 0 <= j < |ks| ensures TriangleAt(prefix, ks[j]) == TriangleAt(list, ks[j]) {
      }
      if !IsLipTriangle(list[n - 3..], lips) {
        var r := rest + list[n - 3..];
        forall j | 0 <= j < |ks| ensures TriangleAt(r, j) == TriangleAt(rest, j) {
        }
        assert TriangleAt(r, |ks|) == list[n - 3..];
      }
    }
  }

  /** The index-list loop of the mesh builder: walks the list three at a
      time and appends each triangle that is not a lip triangle. */
  method BuildIndexList(faceIndexList: seq<nat>, lips: seq<Connection>) returns (r: seq<nat>)
    requires |faceIndexList| % 3 == 0
    ensures r == WithoutLipTriangles(faceIndexList, lips)
  {
    r := [];
    var i := 0;
    while i < |faceIndexList|
      invariant 0 <= i <= |faceIndexList| && i % 3 == 0
      invariant r == WithoutLipTriangles(faceIndexList[..i], lips)
    {
      var triangle := [faceIndexList[i], faceIndexList[i + 1], faceIndexList[i + 2]];
      assert faceIndexList[..i + 3][..i] == faceIndexList[..i];
      assert faceIndexList[..i + 3][i..] == triangle;
      if !IsLipTriangle(triangle, lips) {
        r := r + triangle;
      }
      i := i + 3;
    }
    assert faceIndexList[..i] == faceIndexList;
  }

  // ---------------------------------------------------------------------
  // Vertex attribute buffers

  predicate AllZero(s: seq<real>) {
    forall j :: 0 <= j < |s| ==> s[j] == 0.0
  }

  /** A fresh attribute buffer: `itemSize` zeros per keypoint. */
  method ZeroAttribute(count: nat, itemSize: nat) returns (r: seq<real>)
    ensures |r| == itemSize * count && AllZero(r)
  {
    r := [];
    var i := 0;
    while i < count
      invariant 0 <= i <= count
      invariant |r| == itemSize * i && AllZero(r)
    {
      r := r + seq(itemSize, _ => 0.0);
      i := i + 1;
    }
  }

  /** White vertex colours whose alpha is 0 on the face oval and 1 elsewhere. */
  predicate IsOvalFade(color: seq<real>, numKeypoints: nat, faceOval: seq<Connection>) {
    && |color| == 4 * numKeypoints
    && forall i :: 0 <= i < numKeypoints ==>
         color[4 * i .. 4 * i + 3] == [1.0, 1.0, 1.0]
         && color[4 * i + 3] == (if Touches(faceOval, i) then 0.0 else 1.0)
  }

  method OvalFadeColors(numKeypoints: nat, faceOval: seq<Connection>) returns (r: seq<real>)
    ensures IsOvalFade(r, numKeypoints, faceOval)
  {
    r := [];
    var i := 0;
    while i < numKeypoints
      invariant 0 <= i <= numKeypoints
      invariant IsOvalFade(r, i, faceOval)
    {
      if Touches(faceOval, i) {
        r := r + [1.0, 1.0, 1.0, 0.0];
      } else {
        r := r + [1.0, 1.0, 1.0, 1.0];
      }
      i := i + 1;
    }
  }

  /** Scene positions of landmarks: `x`, `height - y`, `-z` per keypoint. */
  predicate IsScenePositions(position: seq<real>, keypoints: seq<Keypoint>, height: real) {
    && |position| == 3 * |keypoints|
    && forall i :: 0 <= i < |keypoints| ==>
         position[3 * i .. 3 * i + 3] == [keypoints[i].x, height - keypoints[i].y, -keypoints[i].z]
  }

  method PositionList(keypoints: seq<Keypoint>, height: real) returns (r: seq<real>)
    ensures IsScenePositions(r, keypoints, height)
  {
    r := [];
    var i := 0;
    while i < |keypoints|
      invariant 0 <= i <= |keypoints|
      invariant IsScenePositions(r, keypoints[..i], height)
    {
      var keypoint := keypoints[i];
      var r' := r + [keypoint.x, height - keypoint.y, keypoint.z * -1.0];
      assert r'[3 * i .. 3 * i + 3] == [keypoint.x, height - keypoint.y, -keypoint.z];
      forall j | 0 <= j < i ensures r'[3 * j .. 3 * j + 3] == r[3 * j .. 3 * j + 3] {
      }
      r := r';
      i := i + 1;
    }
    assert keypoints[..i] == keypoints;
  }

  /** The scene position of a vertex gives back its landmark. */
  lemma ScenePositionsRecoverKeypoints(position: seq<real>, keypoints: seq<Keypoint>, height: real, i: nat)
    requires IsScenePositions(position, keypoints, height)
    requires i < |keypoints|
    ensures keypoints[i] == Keypoint(position[3 * i], height - position[3 * i + 1], -position[3 * i + 2])
  {
  }

  /** The divisor for texture coordinates: the size the source video reports,
      or the canonical size while it reports 0. */
  function TextureExtent(reported: nat, fallback: nat): (d: real)
    requires fallback > 0
    ensures d > 0.0
    ensures d == (if reported != 0 then reported else fallback) as real
  {
    if reported != 0 then reported as real else fallback as real
  }

  /** Texture coordinates of landmarks: `x / w`, `1 - y / h` per keypoint. */
  predicate IsTextureCoords(uv: seq<real>, keypoints: seq<Keypoint>, w: real, h: real)
    requires w != 0.0 && h != 0.0
  {
    && |uv| == 2 * |keypoints|
    && forall i :: 0 <= i < |keypoints| ==>
         uv[2 * i .. 2 * i + 2] == [keypoints[i].x / w, 1.0 - keypoints[i].y / h]
  }

  method UvList(keypoints: seq<Keypoint>, w: real, h: real) returns (r: seq<real>)
    requires w != 0.0 && h != 0.0
    ensures IsTextureCoords(r, keypoints, w, h)
  {
    r := [];
    var i := 0;
    while i < |keypoints|
      invariant 0 <= i <= |keypoints|
      invariant IsTextureCoords(r, keypoints[..i], w, h)
    {
      var keypoint := keypoints[i];
      r := r + [keypoint.x / w, 1.0 - (keypoint.y / h)];
      i := i + 1;
    }
    assert keypoints[..i] == keypoints;
  }

  /** A landmark inside the w x h source frame gets texture coordinates in the
      unit square, and the coordinates give back its pixel position. */
  lemma TextureCoordsInUnitSquare(uv: seq<real>, keypoints: seq<Keypoint>, w: real, h: real, i: nat)
    requires w > 0.0 && h > 0.0
    requires IsTextureCoords(uv, keypoints, w, h)
    requires i < |keypoints|
    requires 0.0 <= keypoints[i].x <= w && 0.0 <= keypoints[i].y <= h
    ensures 0.0 <= uv[2 * i] <= 1.0 && 0.0 <= uv[2 * i + 1] <= 1.0
    ensures uv[2 * i] * w == keypoints[i].x && (1.0 - uv[2 * i + 1]) * h == keypoints[i].y
  {
  }

  // ---------------------------------------------------------------------
  // Meshes

  /** The two materials: translucent, vertex-coloured and textured for the
      real face; opaque standard for the placeholder. */
  datatype MaterialKind = TexturedBasic | PlaceholderStandard

  /** A mesh over the face topology: its geometry's index list and vertex
      attributes, its visibility, and whether its material's map is the
      source-video texture. An empty `color` means no colour attribute. */
  class FaceMesh {
    var index: seq<nat>
    var position: seq<real>
    var uv: seq<real>
    var color: seq<real>
    const material: MaterialKind
    var mapBound: bool
    var visible: bool

    /** A new mesh is visible and untextured, as a new engine mesh is. */
    constructor (material: MaterialKind, index: seq<nat>, position: seq<real>, uv: seq<real>)
      ensures this.material == material && this.index == index
      ensures this.position == position && this.uv == uv
      ensures color == [] && !mapBound && visible
    {
      this.material := material;
      this.index := index;
      this.position := position;
      this.uv := uv;
      color := [];
      mapBound := false;
      visible := true;
    }
  }

  /** The shape both meshes start from: lip triangles dropped, positions and
      texture coordinates all zero. */
  predicate IsFreshGeometry(mesh: FaceMesh, topology: Topology)
    reads mesh
    requires |topology.faceIndexList| % 3 == 0
  {
    && mesh.index == WithoutLipTriangles(topology.faceIndexList, topology.lips)
    && |mesh.position| == 3 * topology.numKeypoints && AllZero(mesh.position)
    && |mesh.uv| == 2 * topology.numKeypoints && AllZero(mesh.uv)
  }

  method CreateFaceMesh(topology: Topology, material: MaterialKind) returns (mesh: FaceMesh)
    requires |topology.faceIndexList| % 3 == 0
    ensures fresh(mesh)
    ensures IsFreshGeometry(mesh, topology)
    ensures mesh.material == material && mesh.color == [] && !mesh.mapBound && mesh.visible
  {
    var index := BuildIndexList(topology.faceIndexList, topology.lips);
    var position := ZeroAttribute(topology.numKeypoints, 3);
    var uv := ZeroAttribute(topology.numKeypoints, 2);
    mesh := new FaceMesh(material, index, position, uv);
  }

  method CreateRealFaceMesh(topology: Topology) returns (mesh: FaceMesh)
    requires |topology.faceIndexList| % 3 == 0
    ensures fresh(mesh)
    ensures IsFreshGeometry(mesh, topology)
    ensures IsOvalFade(mesh.color, topology.numKeypoints, topology.faceOval)
    ensures mesh.material == TexturedBasic && !mesh.mapBound && mesh.visible
  {
    mesh := CreateFaceMesh(topology, TexturedBasic);
    var color := OvalFadeColors(topology.numKeypoints, topology.faceOval);
    mesh.color := color;
  }

  method CreatePlaceholderFaceMesh(topology: Topology) returns (mesh: FaceMesh)
    requires |topology.faceIndexList| % 3 == 0
    ensures fresh(mesh)
    ensures IsFreshGeometry(mesh, topology)
    ensures mesh.material == PlaceholderStandard && mesh.color == [] && !mesh.mapBound && mesh.visible
  {
    mesh := CreateFaceMesh(topology, PlaceholderStandard);
  }

  // ---------------------------------------------------------------------
  // The face object

  class FaceObject3D {
    const topology: Topology
    const realFaceMesh: FaceMesh
    const placeHolderFaceMesh: FaceMesh
    /** The `isReal` flag; reading this field is the getter. */
    var isReal: bool

    /** Everything the object keeps, except which mesh is visible. */
    ghost predicate WellFormed()
      reads this, realFaceMesh, placeHolderFaceMesh
    {
      && realFaceMesh != placeHolderFaceMesh
      && |topology.faceIndexList| % 3 == 0
      && realFaceMesh.material == TexturedBasic
      && placeHolderFaceMesh.material == PlaceholderStandard
      && realFaceMesh.index == WithoutLipTriangles(topology.faceIndexList, topology.lips)
      && placeHolderFaceMesh.index == realFaceMesh.index
      && IsOvalFade(realFaceMesh.color, topology.numKeypoints, topology.faceOval)
      && placeHolderFaceMesh.color == []
      && !placeHolderFaceMesh.mapBound
    }

    ghost predicate Valid()
      reads this, realFaceMesh, placeHolderFaceMesh
    {
      && WellFormed()
      && realFaceMesh.visible == isReal
      && placeHolderFaceMesh.visible == !isReal
    }

    /** Exactly one of the two meshes is visible. */
    lemma ExactlyOneVisible()
      requires Valid()
      ensures realFaceMesh.visible != placeHolderFaceMesh.visible
    {
    }

    constructor (topology: Topology)
      requires |topology.faceIndexList| % 3 == 0
      ensures Valid() && this.topology == topology
      ensures fresh(realFaceMesh) && fresh(placeHolderFaceMesh)
      ensures IsFreshGeometry(realFaceMesh, topology) && IsFreshGeometry(placeHolderFaceMesh, topology)
      ensures !realFaceMesh.mapBound
      ensures !isReal && !realFaceMesh.visible && placeHolderFaceMesh.visible
    {
      this.topology := topology;
      var realMesh := CreateRealFaceMesh(topology);
      realFaceMesh := realMesh;
      var placeholder := CreatePlaceholderFaceMesh(topology);
      placeHolderFaceMesh := placeholder;
      new;
      SetIsReal(false);
    }

    /** Both meshes take the face's scene positions; nothing else changes. */
    method UpdateFaceGeometry(face: Face, height: real)
      requires Valid()
      modifies realFaceMesh`position, placeHolderFaceMesh`position
      ensures Valid()
      ensures IsScenePositions(realFaceMesh.position, face.keypoints, height)
      ensures IsScenePositions(placeHolderFaceMesh.position, face.keypoints, height)
      ensures realFaceMesh.uv == old(realFaceMesh.uv) && isReal == old(isReal)
    {
      var realPositions := PositionList(face.keypoints, height);
      realFaceMesh.position := realPositions;
      var placeholderPositions := PositionList(face.keypoints, height);
      placeHolderFaceMesh.position := placeholderPositions;
    }

    /** The real mesh takes the face's texture coordinates, normalised by the
        source video's size (or the canonical size while it reports 0), and
        its map becomes the source-video texture; nothing else changes. */
    method UpdateFaceMaterial(sourceFace: Face, videoWidth: nat, videoHeight: nat)
      requires Valid()
      modifies realFaceMesh`uv, realFaceMesh`mapBound
      ensures Valid()
      ensures IsTextureCoords(realFaceMesh.uv, sourceFace.keypoints,
                              TextureExtent(videoWidth, VIDEO_WIDTH), TextureExtent(videoHeight, VIDEO_HEIGHT))
      ensures realFaceMesh.mapBound
      ensures unchanged(placeHolderFaceMesh) && unchanged(this)
      ensures realFaceMesh.position == old(realFaceMesh.position) && realFaceMesh.index == old(realFaceMesh.index)
    {
      var w := TextureExtent(videoWidth, VIDEO_WIDTH);
      var h := TextureExtent(videoHeight, VIDEO_HEIGHT);
      var uv := UvList(sourceFace.keypoints, w, h);
      realFaceMesh.uv := uv;
      realFaceMesh.mapBound := true;
    }

    /** The `isReal` setter: shows the real mesh exactly when `isReal` holds. */
    method SetIsReal(isReal: bool)
      requires WellFormed()
      modifies this`isReal, realFaceMesh`visible, placeHolderFaceMesh`visible
      ensures Valid() && this.isReal == isReal
      ensures realFaceMesh.visible == isReal && placeHolderFaceMesh.visible == !isReal
    {
      this.isReal := isReal;
      realFaceMesh.visible := isReal;
      placeHolderFaceMesh.visible := !isReal;
    }
  }
}
