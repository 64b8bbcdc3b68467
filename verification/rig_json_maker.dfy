/**
 * Export of camera rigs for COLMAP: every collection holding at least one visible camera
 * becomes one rig; its first visible camera is the reference sensor, and every other camera
 * gets its pose relative to the reference, mirrored once in Y (Blender is +Y up, COLMAP +Y
 * down) and read out as a quaternion `[w, x, y, z]` and a translation `[x, y, z]`.
 */
module RigJsonMaker {
  import opened Wrappers
  import opened Seqs
  import opened PyText
  import opened PyPath
  import opened Blend

  /** One element of a rig's `"cameras"` list. */
  datatype CameraEntry =
    | Reference(imagePrefix: string)
    | Posed(imagePrefix: string, rotation: seq<Scalar>, translation: seq<Scalar>)

  /** One element of the exported list: `{"cameras": [...]}`. */
  datatype RigEntry = RigEntry(cameras: seq<CameraEntry>)

  const ConfigFileName: string := "rig_config.json"
  /** What `os.makedirs("", exist_ok=True)` raises. */
  const NoSuchDirectory: string := "FileNotFoundError: [Errno 2] No such file or directory: ''"

  /** `_get_evaluated_matrix(obj, depsgraph)`: a copy of the object's evaluated world matrix. */
  function EvaluatedMatrix(obj: Object): Matrix {
    Evaluated(obj.name)
  }

  /**
   * `_matrix_to_colmap_quat_trans(T)`: mirror `T` in Y, then read the rotation as
   * `[w, x, y, z]` and the translation as `[x, y, z]`.
   */
  function ColmapQuatTrans(t: Matrix): (r: (seq<Scalar>, seq<Scalar>))
    ensures |r.0| == 4 && |r.1| == 3
    ensures forall i :: 0 <= i < 4 ==> r.0[i] == QuatPart(Product(FlipY, t), "wxyz"[i])
    ensures forall i :: 0 <= i < 3 ==> r.1[i] == TransPart(Product(FlipY, t), "xyz"[i])
  {
    var flipped := Product(FlipY, t);
    ([QuatPart(flipped, 'w'), QuatPart(flipped, 'x'), QuatPart(flipped, 'y'), QuatPart(flipped, 'z')],
     [TransPart(flipped, 'x'), TransPart(flipped, 'y'), TransPart(flipped, 'z')])
  }

  /** A camera the exporter sees: a camera object enabled both for rendering and in the viewport. */
  predicate IsExportCamera(o: Object) {
    o.kind == "CAMERA" && !o.hideRender && !o.hideViewport
  }

  function ExportCameras(c: Collection): seq<Object> {
    Filter(c.objects, IsExportCamera)
  }

  predicate HasExportCamera(c: Collection) {
    ExportCameras(c) != []
  }

  function ImagePrefix(collName: string, camName: string): string {
    collName + "/" + camName + "/"
  }

  /** `M_ref.inverted() @ M_cam`. */
  function CamFromRig(ref: Object, cam: Object): Matrix {
    Product(Inverted(EvaluatedMatrix(ref)), EvaluatedMatrix(cam))
  }

  /** The entry for `cam` in the collection named `collName`, whose reference camera is `ref`. */
  function CameraEntryFor(collName: string, ref: Object, cam: Object): CameraEntry {
    if cam == ref then Reference(ImagePrefix(collName, cam.name))
    else
      var (quat, trans) := ColmapQuatTrans(CamFromRig(ref, cam));
      Posed(ImagePrefix(collName, cam.name), quat, trans)
  }

  /** The entries of `cams`, in order. */
  function CameraEntries(collName: string, ref: Object, cams: seq<Object>): seq<CameraEntry>
    decreases |cams|
  {
    if cams == [] then []
    else CameraEntries(collName, ref, cams[..|cams| - 1]) + [CameraEntryFor(collName, ref, cams[|cams| - 1])]
  }

  /** The rig entry of a collection with at least one exported camera; the first is the reference. */
  function RigEntryOf(c: Collection): RigEntry
    requires HasExportCamera(c)
  {
    var cams := ExportCameras(c);
    RigEntry(CameraEntries(c.name, cams[0], cams))
  }

  /** The list the exporter writes for `bpy.data.collections`. */
  function ExportedRigs(colls: seq<Collection>): seq<RigEntry>
    decreases |colls|
  {
    if colls == [] then []
    else
      var c := colls[|colls| - 1];
      ExportedRigs(colls[..|colls| - 1]) + (if HasExportCamera(c) then [RigEntryOf(c)] else [])
  }

  function Numbers(xs: seq<Scalar>): seq<Json> {
    seq(|xs|, i requires 0 <= i < |xs| => JNumber(xs[i]))
  }

  /** A camera entry as the dictionary `json.dump` receives. */
  function CameraJson(e: CameraEntry): Json {
    match e
    case Reference(prefix) =>
      JObject([("image_prefix", JString(prefix)), ("ref_sensor", JBool(true))])
    case Posed(prefix, rotation, translation) =>
      JObject([("image_prefix", JString(prefix)),
               ("cam_from_rig_rotation", JArray(Numbers(rotation))),
               ("cam_from_rig_translation", JArray(Numbers(translation)))])
  }

  function RigJson(r: RigEntry): Json {
    JObject([("cameras", JArray(seq(|r.cameras|, i requires 0 <= i < |r.cameras| => CameraJson(r.cameras[i]))))])
  }

  /** The whole document written to `rig_config.json`. */
  function Document(rigs: seq<RigEntry>): Json {
    JArray(seq(|rigs|, i requires 0 <= i < |rigs| => RigJson(rigs[i])))
  }

  /** The keys of a JSON object, in order. */
  function Keys(j: Json): seq<string>
    requires j.JObject?
  {
    seq(|j.members|, i requires 0 <= i < |j.members| => j.members[i].0)
  }

  /** `self.filepath or getattr(scene, 'colmap_rig_output_path', '') or ""`. */
  function OutputChoice(filepath: string, sceneOutputPath: Option<string>): string {
    if filepath != "" then filepath
    else if sceneOutputPath.Some? && sceneOutputPath.value != "" then sceneOutputPath.value
    else ""
  }

  /** The loops over collections and cameras in `COLMAP_RIG_OT_export.execute`. */
  method AssembleRigs(collections: seq<Collection>) returns (rigs: seq<RigEntry>)
    ensures rigs == ExportedRigs(collections)
  {
    rigs := [];
    for i := 0 to |collections|
      invariant rigs == ExportedRigs(collections[..i])
    {
      var coll := collections[i];
      assert collections[..i + 1][..i] == collections[..i];
      var cams := ExportCameras(coll);
      if cams == [] {
        continue;
      }
      var refCam := cams[0];
      var mRef := EvaluatedMatrix(refCam);
      var cameras := [];
      for j := 0 to |cams|
        invariant cameras == CameraEntries(coll.name, refCam, cams[..j])
      {
        var cam := cams[j];
        assert cams[..j + 1][..j] == cams[..j];
        var mCam := EvaluatedMatrix(cam);
        var tCamRef := Product(Inverted(mRef), mCam);
        var entry;
        if cam == refCam {
          entry := Reference(ImagePrefix(coll.name, cam.name));
        } else {
          var (quat, trans) := ColmapQuatTrans(tCamRef);
          entry := Posed(ImagePrefix(coll.name, cam.name), quat, trans);
        }
        cameras := cameras + [entry];
      }
      assert cams[..|cams|] == cams;
      rigs := rigs + [RigEntry(cameras)];
    }
    assert collections[..|collections|] == collections;
  }

  /**
   * `COLMAP_RIG_OT_export.execute`: assemble the rigs, create the output folder, write
   * `rig_config.json` into it and report how many rigs were exported. With no eligible
   * collection an empty list is written. An empty output path (neither the operator's
   * `filepath` nor `scene.colmap_rig_output_path` set, and `bpy.path.abspath("")` is `""`)
   * makes `os.makedirs` raise before anything is written.
   */
  method Execute(host: Host, collections: seq<Collection>, filepath: string,
                 sceneOutputPath: Option<string>, absPath: string -> string)
    returns (outcome: Result<string, string>)
    modifies host
    ensures var out := absPath(OutputChoice(filepath, sceneOutputPath));
            var jsonPath := Join(out, ConfigFileName);
            var rigs := ExportedRigs(collections);
            if out == "" then
              && outcome == Err(NoSuchDirectory)
              && host.effects == old(host.effects)
            else
              && outcome == Ok("Exported " + Str(|rigs|) + " rigs to " + jsonPath)
              && host.effects == old(host.effects) + [MadeDirs(out), WroteJson(jsonPath, Document(rigs))]
  {
    var outPath := absPath(OutputChoice(filepath, sceneOutputPath));
    var rigs := AssembleRigs(collections);
    if outPath == "" {
      return Err(NoSuchDirectory);
    }
    host.MakeDirs(outPath);
    var jsonPath := Join(outPath, ConfigFileName);
    host.WriteJson(jsonPath, Document(rigs));
    outcome := Ok("Exported " + Str(|rigs|) + " rigs to " + jsonPath);
  }

  // ----- Properties of the export -----

  /** The export of consecutive collection lists is the concatenation of their exports. */
  lemma {:induction false} ExportedRigsAppend(a: seq<Collection>, b: seq<Collection>)
    ensures ExportedRigs(a + b) == ExportedRigs(a) + ExportedRigs(b)
    decreases |b|
  {
    if b == [] {
      assert a + b == a;
    } else {
      var b' := b[..|b| - 1];
      assert (a + b)[..|a + b| - 1] == a + b';
      assert (a + b)[|a + b| - 1] == b[|b| - 1];
      ExportedRigsAppend(a, b');
    }
  }

  /** A collection without a visible camera contributes no rig, wherever it stands. */
  lemma CameralessCollectionIgnored(a: seq<Collection>, c: Collection, b: seq<Collection>)
    requires ExportCameras(c) == []
    ensures ExportedRigs(a + [c] + b) == ExportedRigs(a + b)
  {
    ExportedRigsAppend(a + [c], b);
    ExportedRigsAppend(a, [c]);
    ExportedRigsAppend(a, b);
    assert [c][..0] == [];
  }

  /**
   * There is one rig per collection that has a visible camera, in collection order, so the
   * reported count `len(rigs)` is the number of such collections.
   */
  lemma {:induction false} OneRigPerEligibleCollection(colls: seq<Collection>)
    ensures var eligible := Filter(colls, HasExportCamera);
      && |ExportedRigs(colls)| == |eligible|
      && forall k :: 0 <= k < |eligible| ==> ExportedRigs(colls)[k] == RigEntryOf(eligible[k])
    decreases |colls|
  {
    if colls != [] {
      OneRigPerEligibleCollection(colls[..|colls| - 1]);
    }
  }

  /** With no collection holding a visible camera the export is the empty list. */
  lemma {:induction false} NothingEligibleExportsEmptyList(colls: seq<Collection>)
    requires forall i :: 0 <= i < |colls| ==> !HasExportCamera(colls[i])
    ensures ExportedRigs(colls) == [] && Document(ExportedRigs(colls)) == JArray([])
    decreases |colls|
  {
    if colls != [] {
      NothingEligibleExportsEmptyList(colls[..|colls| - 1]);
    }
  }

  /** The entry list has one entry per camera, each the entry for that camera. */
  lemma {:induction false} CameraEntriesAt(collName: string, ref: Object, cams: seq<Object>, k: nat)
    requires k < |cams|
    ensures |CameraEntries(collName, ref, cams)| == |cams|
    ensures CameraEntries(collName, ref, cams)[k] == CameraEntryFor(collName, ref, cams[k])
    decreases |cams|
  {
    if k < |cams| - 1 {
      CameraEntriesAt(collName, ref, cams[..|cams| - 1], k);
    } else if |cams| > 1 {
      CameraEntriesAt(collName, ref, cams[..|cams| - 1], 0);
    }
  }

  /**
   * A rig entry lists the collection's visible cameras in order. The first is the reference
   * and carries only its image prefix; when the collection holds each object once (as Blender
   * guarantees), every other camera carries the quaternion and translation of
   * `FlipY @ (M_ref.inverted() @ M_cam)`.
   */
  lemma RigEntryShape(c: Collection)
    requires HasExportCamera(c)
    ensures var cams := ExportCameras(c);
      var entries := RigEntryOf(c).cameras;
      && |entries| == |cams|
      && entries[0] == Reference(ImagePrefix(c.name, cams[0].name))
      && (Distinct(c.objects) ==>
            forall k :: 1 <= k < |cams| ==>
              var pose := Product(FlipY, Product(Inverted(Evaluated(cams[0].name)), Evaluated(cams[k].name)));
              entries[k] == Posed(ImagePrefix(c.name, cams[k].name),
                                  [QuatPart(pose, 'w'), QuatPart(pose, 'x'), QuatPart(pose, 'y'), QuatPart(pose, 'z')],
                                  [TransPart(pose, 'x'), TransPart(pose, 'y'), TransPart(pose, 'z')]))
  {
    var cams := ExportCameras(c);
    CameraEntriesAt(c.name, cams[0], cams, 0);
    if Distinct(c.objects) {
      FilterDistinct(c.objects, IsExportCamera);
      forall k | 1 <= k < |cams|
        ensures CameraEntries(c.name, cams[0], cams)[k] == CameraEntryFor(c.name, cams[0], cams[k])
        ensures cams[k] != cams[0]
      {
        CameraEntriesAt(c.name, cams[0], cams, k);
      }
    }
  }

  /** The transform a posed entry is read from: the Y mirror applied to a reference-relative pose. */
  predicate FlippedRelative(m: Matrix) {
    m.Product? && m.left == FlipY && m.right.Product? && m.right.left.Inverted?
  }

  /**
   * The output convention of one entry: a posed entry reads a 4-element rotation and a
   * 3-element translation out of the Y mirror of a reference-relative transform.
   */
  predicate FollowsConvention(e: CameraEntry) {
    e.Posed? ==>
      && |e.rotation| == 4 && |e.translation| == 3
      && (forall s :: s in e.rotation ==> s.QuatPart? && FlippedRelative(s.m))
      && (forall s :: s in e.translation ==> s.TransPart? && FlippedRelative(s.m))
  }

  lemma {:induction false} EntriesFollowConvention(collName: string, ref: Object, cams: seq<Object>)
    ensures forall e :: e in CameraEntries(collName, ref, cams) ==> FollowsConvention(e)
    decreases |cams|
  {
    if cams != [] {
      EntriesFollowConvention(collName, ref, cams[..|cams| - 1]);
    }
  }

  /**
   * Every posed entry of the export, in every rig, follows the same convention: one Y
   * mirror for all sensors, with no per-camera condition.
   */
  lemma {:induction false} UniformConvention(colls: seq<Collection>)
    ensures forall r :: r in ExportedRigs(colls) ==> forall e :: e in r.cameras ==> FollowsConvention(e)
    decreases |colls|
  {
    if colls != [] {
      var c := colls[|colls| - 1];
      UniformConvention(colls[..|colls| - 1]);
      if HasExportCamera(c) {
        EntriesFollowConvention(c.name, ExportCameras(c)[0], ExportCameras(c));
      }
    }
  }

  /**
   * The reference entry is written with exactly the keys `image_prefix` and `ref_sensor`
   * (true), never a rotation or translation; every other entry with exactly
   * `image_prefix`, `cam_from_rig_rotation` and `cam_from_rig_translation`.
   */
  lemma EntryKeys(e: CameraEntry)
    ensures e.Reference? ==>
      Keys(CameraJson(e)) == ["image_prefix", "ref_sensor"] && CameraJson(e).members[1].1 == JBool(true)
    ensures e.Posed? ==>
      Keys(CameraJson(e)) == ["image_prefix", "cam_from_rig_rotation", "cam_from_rig_translation"]
    ensures CameraJson(e).members[0].1 == JString(e.imagePrefix)
  {
  }
}
