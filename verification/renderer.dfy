/**
 * The batch render driver: for every rig item of the scene, in order, every frame of the
 * rig's range and every renderable camera of its collection, point the scene camera and
 * output path at `<out>/<rig>/<cam>/<rig>_image<frame:04>.<ext>` and render one still;
 * the camera, output path and frame range are put back afterwards.
 */
module Renderer {
  import opened Wrappers
  import opened Seqs
  import opened PyText
  import opened PyPath
  import opened PyRange
  import opened Blend

  /** One entry of `scene.rig_collection`. */
  datatype RigItem = RigItem(
    name: string,
    collection: Option<Collection>,
    doRender: bool,
    includeInJson: bool,
    startFrame: int,
    endFrame: int,
    frameStep: int)

  /** What the operator returns, with the message it reports. */
  datatype Outcome =
    | Cancelled(warning: string)
    | Finished(framesRendered: nat, rigsRendered: nat, info: string)
    | Raised(error: string)

  const NoOutputPath: string := "No render output path set"
  const NoRigCollection: string := "No rig collection found in scene"
  const NoFrames: string := "No frames to render"
  const NoRigsMarked: string := "No rigs marked for rendering"
  /** What `len(range(start, end + 1, 0))` raises. */
  const ZeroStep: string := "ValueError: range() arg 3 must not be zero"

  /** The scene settings the driver reads and writes. */
  class Scene {
    var camera: Option<Object>
    var filepath: string
    var frameStart: int
    var frameEnd: int
    var frameStep: int
    var frameCurrent: int
    var fileFormat: string
    /** `scene.rig_collection`, absent when the property is not registered. */
    var rigCollection: Option<seq<RigItem>>

    /** `scene.frame_set(frame)`; the evaluation of the scene at that frame is not modelled. */
    method FrameSet(frame: int)
      modifies this`frameCurrent
      ensures frameCurrent == frame
    {
      frameCurrent := frame;
    }
  }

  // ----- Output names -----

  /** The file extension for `scene.render.image_settings.file_format`. */
  function Extension(fileFormat: string): (ext: string)
    ensures ext == "jpg" <==> fileFormat == "JPEG"
    ensures ext == "exr" <==> fileFormat == "OPEN_EXR"
    ensures ext == "tif" <==> fileFormat == "TIFF"
    ensures ext == "png" <==> fileFormat !in {"JPEG", "OPEN_EXR", "TIFF"}
  {
    if fileFormat == "JPEG" then "jpg"
    else if fileFormat == "PNG" then "png"
    else if fileFormat == "OPEN_EXR" then "exr"
    else if fileFormat == "TIFF" then "tif"
    else "png"
  }

  /**
   * `str(frame).zfill(4)`, written with the sign split off: a negative frame keeps its `-`
   * in front and pads its digits to three (RendererProps.FrameTagIsZFill proves the two agree).
   */
  function FrameTag(frame: int): string {
    if frame < 0 then "-" + ZFill(Digits(-frame), 3) else ZFill(Digits(frame), 4)
  }

  /** `f'{rig_item.name}_image{str(frame).zfill(4)}.{ext}'`: the f-string's pieces, joined in order. */
  function FileName(rigName: string, frame: int, ext: string): string {
    Concat([rigName, "_image", FrameTag(frame), ".", ext])
  }

  /** `os.path.join(out_base, rig_item.name, cam.name)`. */
  function CameraFolder(out: string, rigName: string, camName: string): string {
    Join(Join(out, rigName), camName)
  }

  function OutputPath(out: string, rigName: string, camName: string, frame: int, ext: string): string {
    Join(CameraFolder(out, rigName, camName), FileName(rigName, frame, ext))
  }

  // ----- Planned work (the count taken before rendering) -----

  /** A camera the renderer uses: a camera object not disabled in renders. */
  predicate IsRenderCamera(o: Object) {
    o.kind == "CAMERA" && !o.hideRender
  }

  function RenderCameras(c: Collection): seq<Object> {
    Filter(c.objects, IsRenderCamera)
  }

  /** The rig is counted in the planned total: marked for rendering, with a collection holding a camera. */
  predicate Planned(rig: RigItem) {
    rig.doRender && rig.collection.Some? && RenderCameras(rig.collection.value) != []
  }

  /** Counting the rig does not raise: a counted rig has a non-zero step. */
  predicate Steppable(rig: RigItem) {
    Planned(rig) ==> rig.frameStep != 0
  }

  predicate AllSteppable(rigs: seq<RigItem>) {
    forall i :: 0 <= i < |rigs| ==> Steppable(rigs[i])
  }

  /** `len(range(start_frame, end_frame + 1, frame_step))`, as a sequence of frames. */
  function Frames(rig: RigItem): seq<int>
    requires rig.frameStep != 0
  {
    Range(rig.startFrame, rig.endFrame + 1, rig.frameStep)
  }

  /** The units of work a rig adds to the planned total: frames times cameras. */
  function PlannedWork(rig: RigItem): nat
    requires Steppable(rig)
  {
    if Planned(rig) then RangeLen(rig.startFrame, rig.endFrame + 1, rig.frameStep) * |RenderCameras(rig.collection.value)|
    else 0
  }

  function PlannedUnits(rigs: seq<RigItem>): nat
    requires AllSteppable(rigs)
    decreases |rigs|
  {
    if rigs == [] then 0 else PlannedUnits(rigs[..|rigs| - 1]) + PlannedWork(rigs[|rigs| - 1])
  }

  /** `total_frames_to_render`, or the error that computing it raises. */
  function PlannedTotal(rigs: seq<RigItem>): Result<nat, string> {
    if AllSteppable(rigs) then Ok(PlannedUnits(rigs)) else Err(ZeroStep)
  }

  /** The counting loop before any scene field is touched. */
  method CountPlannedWork(rigs: seq<RigItem>) returns (total: Result<nat, string>)
    ensures total == PlannedTotal(rigs)
  {
    var sum := 0;
    for i := 0 to |rigs|
      invariant AllSteppable(rigs[..i]) && sum == PlannedUnits(rigs[..i])
    {
      var rig := rigs[i];
      assert rigs[..i + 1][..i] == rigs[..i];
      if !rig.doRender || rig.collection.None? {
        continue;
      }
      var cams := RenderCameras(rig.collection.value);
      if cams != [] {
        if rig.frameStep == 0 {
          assert !Steppable(rigs[i]);
          return Err(ZeroStep);
        }
        var framesInRange := RangeLen(rig.startFrame, rig.endFrame + 1, rig.frameStep);
        sum := sum + framesInRange * |cams|;
      }
    }
    assert rigs[..|rigs|] == rigs;
    return Ok(sum);
  }

  // ----- The render walk (what the loops do, in order) -----

  /** The rig's collection exists in `bpy.data.collections`. */
  predicate Present(rig: RigItem, data: seq<Collection>) {
    rig.collection.Some? && rig.collection.value.name in Names(data)
  }

  /** The loops render the rig: present, marked for rendering and holding a camera. */
  predicate RendersRig(rig: RigItem, data: seq<Collection>) {
    Present(rig, data) && rig.doRender && RenderCameras(rig.collection.value) != []
  }

  /** `frames` rounds of `cams` units each, counted one unit at a time as the loops count them. */
  function Tally(frames: nat, cams: nat): nat {
    if frames == 0 then 0 else Tally(frames - 1, cams) + cams
  }

  /** Frames times cameras actually rendered for the rig. */
  function RigUnits(rig: RigItem, data: seq<Collection>): nat
    requires Steppable(rig)
  {
    if RendersRig(rig, data) then Tally(|Frames(rig)|, |RenderCameras(rig.collection.value)|) else 0
  }

  /** Render calls issued for `rigs`: the final `current_frame_index` and `total_frames`. */
  function DoneUnits(rigs: seq<RigItem>, data: seq<Collection>): nat
    requires AllSteppable(rigs)
    decreases |rigs|
  {
    if rigs == [] then 0 else DoneUnits(rigs[..|rigs| - 1], data) + RigUnits(rigs[|rigs| - 1], data)
  }

  /** `rendered_count`. */
  function RenderedRigs(rigs: seq<RigItem>, data: seq<Collection>): nat
    decreases |rigs|
  {
    if rigs == [] then 0
    else RenderedRigs(rigs[..|rigs| - 1], data) + (if RendersRig(rigs[|rigs| - 1], data) then 1 else 0)
  }

  /** The log after one `os.makedirs` per camera folder. */
  function FolderPass(log: seq<Effect>, out: string, rigName: string, cams: seq<Object>): seq<Effect>
    decreases |cams|
  {
    if cams == [] then log
    else FolderPass(log, out, rigName, cams[..|cams| - 1]) + [MadeDirs(CameraFolder(out, rigName, cams[|cams| - 1].name))]
  }

  /**
   * The log after the camera loop at one frame, `done` units in: per camera, a progress
   * update numbering the unit, then a render through that camera into its output path.
   */
  function CameraPass(log: seq<Effect>, out: string, rigName: string, cams: seq<Object>, frame: int, ext: string,
                      done: nat, total: nat): seq<Effect>
    decreases |cams|
  {
    if cams == [] then log
    else
      var cam := cams[|cams| - 1];
      CameraPass(log, out, rigName, cams[..|cams| - 1], frame, ext, done, total)
        + [ProgressUpdated(done + |cams|, total)]
        + [RenderedStill(Some(cam), OutputPath(out, rigName, cam.name, frame, ext), frame)]
  }

  /** The log after the frame loop over `frames`, `done` units in: one camera pass per frame. */
  function FramePass(log: seq<Effect>, out: string, rigName: string, cams: seq<Object>, frames: seq<int>, ext: string,
                     done: nat, total: nat): seq<Effect>
    decreases |frames|
  {
    if frames == [] then log
    else
      var first := CameraPass(log, out, rigName, cams, frames[0], ext, done, total);
      FramePass(first, out, rigName, cams, frames[1..], ext, done + |cams|, total)
  }

  /** The log after the loop body for one rig item: folders first, then the renders. */
  function RigPass(log: seq<Effect>, out: string, rig: RigItem, data: seq<Collection>, ext: string,
                   done: nat, total: nat): seq<Effect>
    requires Steppable(rig)
  {
    if !Present(rig, data) then log
    else
      var cams := RenderCameras(rig.collection.value);
      if cams == [] then log
      else
        var folders := if rig.includeInJson then FolderPass(log, out, rig.name, cams) else log;
        if rig.doRender then FramePass(folders, out, rig.name, cams, Frames(rig), ext, done, total) else folders
  }

  /** The log after the loop over all rig items. */
  function Walk(log: seq<Effect>, out: string, rigs: seq<RigItem>, data: seq<Collection>, ext: string, total: nat): seq<Effect>
    requires AllSteppable(rigs)
    decreases |rigs|
  {
    if rigs == [] then log
    else
      var before := rigs[..|rigs| - 1];
      RigPass(Walk(log, out, before, data, ext, total), out, rigs[|rigs| - 1], data, ext, DoneUnits(before, data), total)
  }

  /** `scene.frame_current` after the loop: the last frame passed to `frame_set`, if any. */
  function FinalFrame(rigs: seq<RigItem>, data: seq<Collection>, initial: int): int
    requires AllSteppable(rigs)
    decreases |rigs|
  {
    if rigs == [] then initial
    else
      var rig := rigs[|rigs| - 1];
      var before := FinalFrame(rigs[..|rigs| - 1], data, initial);
      if RendersRig(rig, data) && Frames(rig) != [] then Frames(rig)[|Frames(rig)| - 1] else before
  }

  /** What `scene.camera` and `scene.render.filepath` point at. */
  datatype Target = Target(camera: Option<Object>, filepath: string)

  /** The target after the camera loop at `frame` (renderer.py:118-119): each camera in turn overwrites it. */
  function CameraTarget(out: string, rigName: string, cams: seq<Object>, frame: int, ext: string, before: Target): Target
    decreases |cams|
  {
    if cams == [] then before
    else CameraTarget(out, rigName, cams[1..], frame, ext, Target(Some(cams[0]), OutputPath(out, rigName, cams[0].name, frame, ext)))
  }

  /** The target after the frame loop: the camera loop at each frame in turn. */
  function FrameTarget(out: string, rigName: string, cams: seq<Object>, frames: seq<int>, ext: string, before: Target): Target
    decreases |frames|
  {
    if frames == [] then before
    else FrameTarget(out, rigName, cams, frames[1..], ext, CameraTarget(out, rigName, cams, frames[0], ext, before))
  }

  /** The target after one rig item: moved only when the rig renders. */
  function RigTarget(out: string, rig: RigItem, data: seq<Collection>, ext: string, before: Target): Target
    requires Steppable(rig)
  {
    if RendersRig(rig, data) then FrameTarget(out, rig.name, RenderCameras(rig.collection.value), Frames(rig), ext, before)
    else before
  }

  /** The target after the rig loop, before the driver restores it. */
  function FinalTarget(out: string, rigs: seq<RigItem>, data: seq<Collection>, ext: string, initial: Target): Target
    requires AllSteppable(rigs)
    decreases |rigs|
  {
    if rigs == [] then initial
    else RigTarget(out, rigs[|rigs| - 1], data, ext, FinalTarget(out, rigs[..|rigs| - 1], data, ext, initial))
  }

  function Summary(frames: nat, rigs: nat, out: string): string {
    "Rendered " + Str(frames) + " frames for " + Str(rigs) + " rigs into " + out
  }

  // ----- One step of each pass -----

  lemma FolderPassStep(log: seq<Effect>, out: string, rigName: string, cams: seq<Object>, j: nat)
    requires j < |cams|
    ensures FolderPass(log, out, rigName, cams[..j + 1])
         == FolderPass(log, out, rigName, cams[..j]) + [MadeDirs(CameraFolder(out, rigName, cams[j].name))]
  {
    assert cams[..j + 1][..j] == cams[..j];
  }

  lemma CameraPassStep(log: seq<Effect>, out: string, rigName: string, cams: seq<Object>, frame: int, ext: string,
                       done: nat, total: nat, j: nat)
    requires j < |cams|
    ensures CameraPass(log, out, rigName, cams[..j + 1], frame, ext, done, total)
         == CameraPass(log, out, rigName, cams[..j], frame, ext, done, total)
            + [ProgressUpdated(done + j + 1, total)]
            + [RenderedStill(Some(cams[j]), OutputPath(out, rigName, cams[j].name, frame, ext), frame)]
  {
    assert cams[..j + 1][..j] == cams[..j];
  }

  lemma WalkStep(log: seq<Effect>, out: string, rigs: seq<RigItem>, data: seq<Collection>, ext: string, total: nat, i: nat)
    requires i < |rigs| && AllSteppable(rigs)
    ensures AllSteppable(rigs[..i]) && AllSteppable(rigs[..i + 1])
    ensures Walk(log, out, rigs[..i + 1], data, ext, total)
         == RigPass(Walk(log, out, rigs[..i], data, ext, total), out, rigs[i], data, ext, DoneUnits(rigs[..i], data), total)
    ensures DoneUnits(rigs[..i + 1], data) == DoneUnits(rigs[..i], data) + RigUnits(rigs[i], data)
    ensures RenderedRigs(rigs[..i + 1], data) == RenderedRigs(rigs[..i], data) + (if RendersRig(rigs[i], data) then 1 else 0)
  {
    assert rigs[..i + 1][..i] == rigs[..i];
  }

  lemma FinalFrameStep(rigs: seq<RigItem>, data: seq<Collection>, initial: int, i: nat)
    requires i < |rigs| && AllSteppable(rigs)
    ensures AllSteppable(rigs[..i]) && AllSteppable(rigs[..i + 1])
    ensures FinalFrame(rigs[..i + 1], data, initial)
         == if RendersRig(rigs[i], data) && Frames(rigs[i]) != [] then Frames(rigs[i])[|Frames(rigs[i])| - 1]
            else FinalFrame(rigs[..i], data, initial)
  {
    assert rigs[..i + 1][..i] == rigs[..i];
  }

  lemma FinalTargetStep(out: string, rigs: seq<RigItem>, data: seq<Collection>, ext: string, initial: Target, i: nat)
    requires i < |rigs| && AllSteppable(rigs)
    ensures AllSteppable(rigs[..i]) && AllSteppable(rigs[..i + 1])
    ensures FinalTarget(out, rigs[..i + 1], data, ext, initial)
         == RigTarget(out, rigs[i], data, ext, FinalTarget(out, rigs[..i], data, ext, initial))
  {
    assert rigs[..i + 1][..i] == rigs[..i];
  }

  // ----- The driver -----

  /**
   * One camera at the current frame (renderer.py:92-122): report progress, point the scene
   * camera and output path at the camera's file, and render a still.
   */
  method RenderCamera(scene: Scene, host: Host, out: string, rigName: string, cam: Object,
                      currentFrameIndex: nat, total: nat)
    returns (next: nat)
    modifies scene`camera, scene`filepath, host
    ensures next == currentFrameIndex + 1
    ensures Target(scene.camera, scene.filepath)
         == Target(Some(cam), OutputPath(out, rigName, cam.name, scene.frameCurrent, Extension(scene.fileFormat)))
    ensures host.effects == old(host.effects) + [ProgressUpdated(next, total), RenderedStill(scene.camera, scene.filepath, scene.frameCurrent)]
  {
    next := currentFrameIndex + 1;
    host.ProgressUpdate(next, total);
    var camFolder := CameraFolder(out, rigName, cam.name);
    var ext := Extension(scene.fileFormat);
    var filename := FileName(rigName, scene.frameCurrent, ext);
    var filepath := Join(camFolder, filename);
    scene.camera := Some(cam);
    scene.filepath := filepath;
    host.RenderStill(scene.camera, scene.filepath, scene.frameCurrent);
  }

  /**
   * The camera loop at one frame (renderer.py:91-123), with `current_frame_index` at
   * `done` on entry and returned on exit.
   */
  method RenderAtFrame(scene: Scene, host: Host, out: string, rigName: string, cams: seq<Object>,
                       frame: int, done: nat, total: nat)
    returns (currentFrameIndex: nat)
    requires scene.frameCurrent == frame
    modifies scene`camera, scene`filepath, host
    ensures host.effects == CameraPass(old(host.effects), out, rigName, cams, frame, Extension(scene.fileFormat), done, total)
    ensures currentFrameIndex == done + |cams|
    ensures Target(scene.camera, scene.filepath)
         == CameraTarget(out, rigName, cams, frame, Extension(scene.fileFormat), Target(old(scene.camera), old(scene.filepath)))
  {
    ghost var e0 := host.effects;
    ghost var ext0 := Extension(scene.fileFormat);
    ghost var goal := CameraTarget(out, rigName, cams, frame, ext0, Target(scene.camera, scene.filepath));
    currentFrameIndex := done;
    for j := 0 to |cams|
      invariant host.effects == CameraPass(e0, out, rigName, cams[..j], frame, ext0, done, total)
      invariant currentFrameIndex == done + j
      invariant goal == CameraTarget(out, rigName, cams[j..], frame, ext0, Target(scene.camera, scene.filepath))
    {
      CameraPassStep(e0, out, rigName, cams, frame, ext0, done, total, j);
      assert cams[j..][0] == cams[j] && cams[j..][1..] == cams[j + 1..];
      currentFrameIndex := RenderCamera(scene, host, out, rigName, cams[j], currentFrameIndex, total);
    }
    assert cams[..|cams|] == cams;
  }

  /** The frame loop for one rig (renderer.py:88-123), threading `current_frame_index`. */
  method RenderRigFrames(scene: Scene, host: Host, out: string, rigName: string, cams: seq<Object>,
                         frames: seq<int>, done: nat, total: nat)
    returns (currentFrameIndex: nat)
    modifies scene`camera, scene`filepath, scene`frameCurrent, host
    ensures host.effects == FramePass(old(host.effects), out, rigName, cams, frames, Extension(scene.fileFormat), done, total)
    ensures currentFrameIndex == done + Tally(|frames|, |cams|)
    ensures scene.frameCurrent == if frames == [] then old(scene.frameCurrent) else frames[|frames| - 1]
    ensures Target(scene.camera, scene.filepath)
         == FrameTarget(out, rigName, cams, frames, Extension(scene.fileFormat), Target(old(scene.camera), old(scene.filepath)))
  {
    ghost var ext0 := Extension(scene.fileFormat);
    ghost var aim := FrameTarget(out, rigName, cams, frames, ext0, Target(scene.camera, scene.filepath));
    ghost var goal := FramePass(host.effects, out, rigName, cams, frames, ext0, done, total);
    currentFrameIndex := done;
    for k := 0 to |frames|
      invariant goal == FramePass(host.effects, out, rigName, cams, frames[k..], ext0, currentFrameIndex, total)
      invariant currentFrameIndex == done + Tally(k, |cams|)
      invariant scene.frameCurrent == if k == 0 then old(scene.frameCurrent) else frames[k - 1]
      invariant aim == FrameTarget(out, rigName, cams, frames[k..], ext0, Target(scene.camera, scene.filepath))
    {
      var frame := frames[k];
      ghost var next := CameraPass(host.effects, out, rigName, cams, frame, ext0, currentFrameIndex, total);
      assert frames[k..][0] == frame && frames[k..][1..] == frames[k + 1..];
      assert goal == FramePass(next, out, rigName, cams, frames[k + 1..], ext0, currentFrameIndex + |cams|, total);
      ghost var moved := CameraTarget(out, rigName, cams, frame, ext0, Target(scene.camera, scene.filepath));
      assert aim == FrameTarget(out, rigName, cams, frames[k + 1..], ext0, moved);
      scene.FrameSet(frame);
      currentFrameIndex := RenderAtFrame(scene, host, out, rigName, cams, frame, currentFrameIndex, total);
      assert host.effects == next && Target(scene.camera, scene.filepath) == moved;
    }
  }

  /**
   * The loop body for one rig item (renderer.py:57-125): skip a rig whose collection is
   * missing or holds no camera; make the camera folders when the rig is included in the
   * JSON; render when it is marked for rendering.
   */
  method ProcessRig(scene: Scene, host: Host, out: string, rig: RigItem, data: seq<Collection>,
                    done: nat, total: nat)
    returns (units: nat, rendered: bool)
    requires Steppable(rig)
    modifies scene`camera, scene`filepath, scene`frameCurrent, host
    ensures host.effects == RigPass(old(host.effects), out, rig, data, Extension(scene.fileFormat), done, total)
    ensures units == RigUnits(rig, data) && rendered == RendersRig(rig, data)
    ensures scene.frameCurrent
         == if RendersRig(rig, data) && Frames(rig) != [] then Frames(rig)[|Frames(rig)| - 1] else old(scene.frameCurrent)
    ensures Target(scene.camera, scene.filepath)
         == RigTarget(out, rig, data, Extension(scene.fileFormat), Target(old(scene.camera), old(scene.filepath)))
  {
    if rig.collection.None? || rig.collection.value.name !in Names(data) {
      return 0, false;
    }
    var coll := rig.collection.value;
    var cams := RenderCameras(coll);
    if cams == [] {
      return 0, false;
    }
    ghost var e0 := host.effects;
    if rig.includeInJson {
      for j := 0 to |cams|
        invariant host.effects == FolderPass(e0, out, rig.name, cams[..j])
        invariant unchanged(scene)
      {
        FolderPassStep(e0, out, rig.name, cams, j);
        host.MakeDirs(CameraFolder(out, rig.name, cams[j].name));
      }
      assert cams[..|cams|] == cams;
    }
    if !rig.doRender {
      return 0, false;
    }
    var frames := Frames(rig);
    var currentFrameIndex := RenderRigFrames(scene, host, out, rig.name, cams, frames, done, total);
    return currentFrameIndex - done, true;
  }

  /** The loop over the rig items (renderer.py:53-125), after the planned total is known. */
  method RenderRigs(scene: Scene, host: Host, out: string, rigs: seq<RigItem>, data: seq<Collection>, total: nat)
    returns (totalFrames: nat, renderedCount: nat)
    requires AllSteppable(rigs)
    modifies scene`camera, scene`filepath, scene`frameCurrent, host
    ensures host.effects == Walk(old(host.effects), out, rigs, data, Extension(scene.fileFormat), total)
    ensures totalFrames == DoneUnits(rigs, data) && renderedCount == RenderedRigs(rigs, data)
    ensures scene.frameCurrent == FinalFrame(rigs, data, old(scene.frameCurrent))
    ensures Target(scene.camera, scene.filepath)
         == FinalTarget(out, rigs, data, Extension(scene.fileFormat), Target(old(scene.camera), old(scene.filepath)))
  {
    ghost var e0 := host.effects;
    ghost var t0 := Target(scene.camera, scene.filepath);
    renderedCount, totalFrames := 0, 0;
    var currentFrameIndex := 0;
    for i := 0 to |rigs|
      invariant AllSteppable(rigs[..i])
      invariant host.effects == Walk(e0, out, rigs[..i], data, Extension(scene.fileFormat), total)
      invariant currentFrameIndex == totalFrames == DoneUnits(rigs[..i], data)
      invariant renderedCount == RenderedRigs(rigs[..i], data)
      invariant scene.frameCurrent == FinalFrame(rigs[..i], data, old(scene.frameCurrent))
      invariant Target(scene.camera, scene.filepath) == FinalTarget(out, rigs[..i], data, Extension(scene.fileFormat), t0)
    {
      WalkStep(e0, out, rigs, data, Extension(scene.fileFormat), total, i);
      FinalFrameStep(rigs, data, old(scene.frameCurrent), i);
      FinalTargetStep(out, rigs, data, Extension(scene.fileFormat), t0, i);
      var units, rendered := ProcessRig(scene, host, out, rigs[i], data, currentFrameIndex, total);
      currentFrameIndex := currentFrameIndex + units;
      totalFrames := totalFrames + units;
      if rendered {
        renderedCount := renderedCount + 1;
      }
    }
    assert rigs[..|rigs|] == rigs;
  }

  /**
   * `COLMAP_RIG_OT_render.execute`. `absPath` is `bpy.path.abspath`; `data` is
   * `bpy.data.collections`.
   */
  method Execute(scene: Scene, host: Host, absPath: string -> string, data: seq<Collection>)
    returns (outcome: Outcome)
    modifies scene`camera, scene`filepath, scene`frameStart, scene`frameEnd, scene`frameStep, scene`frameCurrent, host
    // No output path: cancelled before anything is touched.
    ensures absPath(old(scene.filepath)) == "" ==>
      outcome == Cancelled(NoOutputPath) && unchanged(scene) && unchanged(host)
    // No rig collection property: cancelled before anything is touched.
    ensures absPath(old(scene.filepath)) != "" && scene.rigCollection.None? ==>
      outcome == Cancelled(NoRigCollection) && unchanged(scene) && unchanged(host)
    // Counting raises on a zero step: only the progress bar was opened.
    ensures absPath(old(scene.filepath)) != "" && scene.rigCollection.Some?
            && PlannedTotal(scene.rigCollection.value).Err? ==>
      outcome == Raised(ZeroStep) && unchanged(scene) && host.effects == old(host.effects) + [ProgressBegan]
    // Nothing planned: cancelled before any scene assignment (the progress bar stays open).
    ensures absPath(old(scene.filepath)) != "" && scene.rigCollection.Some?
            && PlannedTotal(scene.rigCollection.value) == Ok(0) ==>
      outcome == Cancelled(NoFrames) && unchanged(scene) && host.effects == old(host.effects) + [ProgressBegan]
    // The full run: the walk, then the saved fields restored and the counts reported.
    ensures absPath(old(scene.filepath)) != "" && scene.rigCollection.Some?
            && PlannedTotal(scene.rigCollection.value).Ok?
            && PlannedTotal(scene.rigCollection.value).value > 0 ==>
      var rigs := scene.rigCollection.value;
      var out := absPath(old(scene.filepath));
      var total := PlannedTotal(rigs).value;
      && host.effects == Walk(old(host.effects) + [ProgressBegan], out, rigs, data, Extension(scene.fileFormat), total)
                         + [ProgressEnded]
      && scene.camera == old(scene.camera) && scene.filepath == old(scene.filepath)
      && scene.frameStart == old(scene.frameStart) && scene.frameEnd == old(scene.frameEnd)
      && scene.frameStep == old(scene.frameStep)
      && scene.frameCurrent == FinalFrame(rigs, data, old(scene.frameCurrent))
      && outcome == (if RenderedRigs(rigs, data) == 0 then Cancelled(NoRigsMarked)
                     else Finished(DoneUnits(rigs, data), RenderedRigs(rigs, data),
                                   Summary(DoneUnits(rigs, data), RenderedRigs(rigs, data), out)))
  {
    var outBase := absPath(scene.filepath);
    if outBase == "" {
      return Cancelled(NoOutputPath);
    }
    if scene.rigCollection.None? {
      return Cancelled(NoRigCollection);
    }
    var rigs := scene.rigCollection.value;
    host.ProgressBegin();

    var originalCamera := scene.camera;
    var origFilepath := scene.filepath;
    var origFrameStart := scene.frameStart;
    var origFrameEnd := scene.frameEnd;
    var origFrameStep := scene.frameStep;

    var planned := CountPlannedWork(rigs);
    if planned.Err? {
      return Raised(planned.error);
    }
    var totalFramesToRender := planned.value;
    if totalFramesToRender == 0 {
      return Cancelled(NoFrames);
    }

    var totalFrames, renderedCount := RenderRigs(scene, host, outBase, rigs, data, totalFramesToRender);

    host.ProgressEnd();

    scene.camera := originalCamera;
    scene.filepath := origFilepath;
    scene.frameStart := origFrameStart;
    scene.frameEnd := origFrameEnd;
    scene.frameStep := origFrameStep;

    if renderedCount == 0 {
      return Cancelled(NoRigsMarked);
    }
    return Finished(totalFrames, renderedCount, Summary(totalFrames, renderedCount, outBase));
  }
}
