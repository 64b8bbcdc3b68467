# COLMAP rig add-on for Blender: a Dafny model of the render driver and the rig exporter

The add-on groups the cameras of a Blender scene into *rigs* (one collection per rig). It
does two things with them:

- **Batch render driver** (`COLMAP_RIG_OT_render.execute`, renderer.py). For every rig item
  of `scene.rig_collection`, in order, it walks every frame of the rig's range and every
  renderable camera of its collection. For each camera it points `scene.camera` and
  `scene.render.filepath` at `<out>/<rig>/<cam>/<rig>_image<frame:04>.<ext>` and renders one
  still. It counts the planned work beforehand to drive a progress bar, creates the camera
  folders of rigs included in the JSON, and afterwards restores the camera, the output path
  and the frame range.
- **Rig exporter** (`COLMAP_RIG_OT_export.execute` and its two helpers, rig_json_maker.py).
  Every collection with at least one visible camera becomes one rig entry. Its first visible
  camera is the reference sensor. Every other camera gets the rotation `[w, x, y, z]` and the
  translation `[x, y, z]` of `FlipY @ (M_ref.inverted() @ M_cam)`. The list is written to
  `rig_config.json`.

Modules:

- `Wrappers` (wrappers.dfy): `Option` and `Result`.
- `Seqs` (seqs.dfy): order-preserving filtering, i.e. the list comprehensions over `coll.objects`.
- `PyText` (pytext.dfy): `str(int)`, `str.zfill` and `''.join`, with the decimal reading that inverts the first two.
- `PyPath` (pypath.dfy): two-argument POSIX `os.path.join`.
- `PyRange` (pyrange.dfy): `len(range(...))` and its elements.
- `Blend` (blend.dfy): the host seen by the add-on.
  - Scene objects and collections.
  - `mathutils` transforms as symbolic terms.
  - The JSON tree.
  - A `Host` class whose ghost `effects` log records, in order, every directory made, every
    progress-bar call, every render call (with the camera, output path and frame the scene
    holds at that moment) and every JSON file written.
- `Renderer` (renderer.dfy): the render driver.
  - The scene is a class whose fields the driver assigns.
  - The driver is a chain of methods with loops: rigs, then frames, then cameras. Each is
    proved against a specification function of the effect log (`CameraPass`, `FramePass`,
    `RigPass`, `Walk`) and of the counters (`Tally`, `RigUnits`, `DoneUnits`, `RenderedRigs`).
- `RendererProps` (renderer_props.dfy): what those specification functions guarantee.
  - Output names.
  - The planned total against the units rendered.
  - The order of the render calls.
  - The progress bar never passing 100 percent.
  - Folder creation.
  - The rendered-rig count.
- `RigJsonMaker` (rig_json_maker.dfy): the exporter.
  - Its loops are a method proved equal to `ExportedRigs`.
  - Lemmas state the shape of the export.

## Model

| member | source | states |
|---|---|---|
| Renderer.Execute | renderer.py:11-142 | All five exits. (1) The output path resolves to empty: CANCELLED, scene and host untouched. (2) No `rig_collection`: the same. (3) A counted rig has a zero step: `range` raises, after only the progress bar was opened. (4) The planned total is 0: CANCELLED "No frames to render", scene untouched, progress bar opened. (5) Otherwise the log is progress-begin, then `Walk`, then progress-end. Camera, output path, frame start, end and step are back to their old values. `frame_current` is the last frame set. The outcome is CANCELLED "No rigs marked for rendering" when no rig was rendered, else FINISHED with the frame and rig counts and the summary text |
| Renderer.RenderRigs | renderer.py:53-125 | The rig loop leaves exactly the `Walk` log. `total_frames` equals `DoneUnits`. `rendered_count` equals `RenderedRigs`. `frame_current` is `FinalFrame`. `scene.camera` and `scene.render.filepath` are `FinalTarget`: each rendering rig in turn overwrites them |
| Renderer.ProcessRig | renderer.py:56-125 | One rig item's log is `RigPass`: nothing for a missing collection or no camera; then the folders if `include_in_json`; then the renders if `do_render`. It reports `RigUnits` units and whether the rig counts as rendered. The camera and output path are `RigTarget`: moved by a rendering rig, untouched otherwise |
| Renderer.RenderRigFrames | renderer.py:88-123 | The frame loop's log is `FramePass`. `current_frame_index` advances by one per frame and camera, i.e. by `Tally(frames, cams)`. `frame_current` ends at the last frame, or is unchanged for an empty range. The camera and output path are `FrameTarget`: the camera loop's target at each frame in turn |
| Renderer.RenderAtFrame | renderer.py:91-123 | At one frame, per camera in order: a progress update numbering the unit, then a render with `scene.camera` that camera, `scene.render.filepath` its `OutputPath`, at the current frame. The index advances by the number of cameras. The camera and output path are `CameraTarget`: each camera in turn overwrites them |
| Renderer.RenderCamera | renderer.py:92-122 | One camera: the progress update numbering the next unit, then `scene.camera` is that camera, `scene.render.filepath` is its `OutputPath` at the current frame, and one render call records both |
| Renderer.CountPlannedWork | renderer.py:39-47 | The counting loop returns `PlannedTotal`: the sum over counted rigs of frame count times camera count, or the `ValueError` a zero step raises |
| Renderer.Extension | renderer.py:102-112 | In both directions: `jpg` exactly for JPEG, `exr` exactly for OPEN_EXR, `tif` exactly for TIFF, `png` exactly for every other format, PNG included |
| Renderer.Scene.FrameSet | renderer.py:89 | `frame_set` sets the current frame to the given frame |
| RendererProps.FrameTagIsZFill | renderer.py:114 | The sign-split tag equals `str(frame).zfill(4)`: the sign stays in front and the digits are padded behind it |
| RendererProps.FrameTagRoundTrip | renderer.py:114 | `int(str(frame).zfill(4)) == frame` for every frame, negative ones included |
| RendererProps.FrameTagWidth | renderer.py:114 | Frames 0 to 9999 get exactly four digits |
| RendererProps.FileNameLayout | renderer.py:114 | The file name is the rig name, then `_image`, then the padded frame, then `.` and the extension |
| RendererProps.DistinctFramesDistinctFiles | renderer.py:114 | Two different frames of one rig never get the same file name |
| RendererProps.OutputLayout | renderer.py:99-115 | With slash-free rig and camera names and an output base without a trailing slash, the folder is `out/rig/cam` and the file is `out/rig/cam/<rig>_image<tag>.<ext>` |
| RendererProps.PlannedWorkFormula | renderer.py:42-47 | For a step of at least 1, a counted rig adds 0 for an empty range, else `((end - start) / step + 1) * cams`; an uncounted rig adds 0 |
| RendererProps.FrameCountExamples | renderer.py:46 | Frames 1 to 250 by 10 count 25; frame 1 alone counts 1 |
| RendererProps.TallyIsProduct | renderer.py:46-47 | Counting one unit per camera per frame gives frames times cameras |
| RendererProps.PlannedUnitsAppend | renderer.py:41-47 | One more rig item adds its planned work to the total |
| RendererProps.PlannedTotalRaises | renderer.py:42-46 | Counting raises exactly when some counted rig has a zero step |
| RendererProps.PlannedZeroIff | renderer.py:40-51 | The planned total is 0 exactly when every counted rig has an empty frame range |
| RendererProps.RigUnitsWithinPlan | renderer.py:42-92 | A rendered rig was counted. Its units never exceed its planned work, and equal it when its collection is in `bpy.data` |
| RendererProps.DoneWithinPlanned | renderer.py:40-123 | `total_frames` never exceeds `total_frames_to_render`, and equals it when every rig's collection is present in `bpy.data` |
| RendererProps.NoRigRenderedIff | renderer.py:125-139 | `rendered_count` is 0 exactly when no rig is present, marked for rendering and holding a camera |
| RendererProps.RenderedRigsBound | renderer.py:56-125 | `rendered_count` never exceeds the number of rig items |
| RendererProps.CameraPassExtends | renderer.py:91-122 | The camera loop adds two entries per camera and keeps the earlier log |
| RendererProps.CameraPassAt | renderer.py:91-122 | Entry pair `j` of the camera loop is the update numbering unit `done + j + 1`, then the render through camera `j` into its output path at that frame |
| RendererProps.FramePassExtends | renderer.py:88-122 | The frame loop adds two entries per unit and keeps the earlier log |
| RendererProps.FramePassAppend | renderer.py:88-122 | Running the frame loop over `a + b` is running it over `a`, then over `b`, with the unit count carried on |
| RendererProps.FramePassSnoc | renderer.py:88-122 | A later frame's camera loop comes after every earlier frame's, numbered after all their units: frames in the order of the range |
| RendererProps.CameraPassRenders | renderer.py:91-123 | The camera loop makes one render call per camera |
| RendererProps.FramePassRenders | renderer.py:88-123 | The frame loop makes one render call per unit |
| RendererProps.FolderPassRenders | renderer.py:73-76 | Making folders issues no render call |
| RendererProps.RigPassRenders | renderer.py:57-123 | A rig item's loop body makes one render call per unit it adds to `total_frames` |
| RendererProps.WalkRenders | renderer.py:56-123 | The whole walk makes exactly `total_frames` render calls |
| RendererProps.CameraPassProgress | renderer.py:91-97 | When the units fit the total, the camera loop's progress updates report a unit between 1 and the total |
| RendererProps.FramePassProgress | renderer.py:88-97 | The same for the frame loop |
| RendererProps.FolderPassProgress | renderer.py:73-76 | Making folders adds no progress update |
| RendererProps.RigPassProgress | renderer.py:57-97 | The same for one rig item's loop body |
| RendererProps.WalkProgress | renderer.py:53-125 | The same for the whole walk |
| RendererProps.ProgressWithinPlan | renderer.py:40-97 | With the planned total as denominator, every update the walk issues satisfies `0 < current_frame_index <= total_frames_to_render`: the bar never passes 100 percent |
| RendererProps.FolderPassAt | renderer.py:74-76 | Folder entry `j` is the `makedirs` of camera `j`'s folder, after the earlier log |
| RendererProps.CameraTargetLast | renderer.py:91-120 | After the camera loop at a frame, the scene camera is the last camera and the output path is that camera's file at the frame; with no camera both are as before |
| RendererProps.FrameTargetLast | renderer.py:88-120 | After the frame loop, the scene camera is the last camera and the output path its file at the last frame; with no camera or no frame both are as before |
| RendererProps.FrameTargetIsLastRender | renderer.py:88-122 | After the frame loop, the camera and output path are exactly those of the last render call, made at the last frame |
| RendererProps.RigTargetIsLastRender | renderer.py:57-122 | A rig that renders at least one frame leaves the camera and output path of its last render call; any other rig leaves them as they were |
| RendererProps.FoldersRegardlessOfRender | renderer.py:72-80 | A present rig with a camera and `include_in_json` makes every camera folder first, in order, whether or not `do_render` is set |
| RigJsonMaker.AssembleRigs | rig_json_maker.py:55-99 | The loops over collections and cameras build exactly `ExportedRigs` |
| RigJsonMaker.Execute | rig_json_maker.py:51-111 | When the output path resolves to empty, `os.makedirs` raises `FileNotFoundError` and nothing is made or written. Otherwise the output folder is made, then `rig_config.json` inside it is written with the document of `ExportedRigs`, and the message reports `len(rigs)` and the JSON path |
| RigJsonMaker.ExportedRigsAppend | rig_json_maker.py:59-99 | The export of two consecutive collection lists is the concatenation of their exports |
| RigJsonMaker.CameralessCollectionIgnored | rig_json_maker.py:61-66 | A collection without a visible camera contributes no entry, wherever it stands |
| RigJsonMaker.OneRigPerEligibleCollection | rig_json_maker.py:59-110 | One entry per collection with a visible camera, in collection order, so `len(rigs)` counts those collections |
| RigJsonMaker.NothingEligibleExportsEmptyList | rig_json_maker.py:55-107 | With no eligible collection, the empty list is exported |
| RigJsonMaker.CameraEntriesAt | rig_json_maker.py:74-96 | A rig's `cameras` list has one entry per visible camera, in collection order |
| RigJsonMaker.RigEntryShape | rig_json_maker.py:16-96 | Entry 0 is the reference, with its image prefix only. For a collection holding each object once, every other entry is the image prefix plus the quaternion and translation of `FlipY @ (Inv(M_ref) @ M_cam)` |
| RigJsonMaker.EntriesFollowConvention | rig_json_maker.py:16-93 | Every posed entry of a rig reads 4 rotation and 3 translation parts from the Y mirror of a reference-relative transform |
| RigJsonMaker.UniformConvention | rig_json_maker.py:59-99 | The same holds for every posed entry in every rig: one flip for all sensors, with no condition |
| RigJsonMaker.EntryKeys | rig_json_maker.py:82-93 | The reference entry has exactly the keys `image_prefix` and `ref_sensor` (true). Every other entry has exactly `image_prefix`, `cam_from_rig_rotation` and `cam_from_rig_translation`. `image_prefix` is `coll/cam/` |
| PyText.StrShape | renderer.py:114 | `str(n)` is non-empty and starts with `-` exactly for negative `n` |
| PyText.DigitsRoundTrip | renderer.py:114 | The digits of `n` read back as `n` |
| PyText.ZFillRoundTrip | renderer.py:114 | `int(str(n).zfill(w)) == n` for every width and sign |
| PyText.ZFillPads | renderer.py:114 | `zfill` puts all its padding in one run of zeros, after a leading `+` or `-` and in front otherwise, and changes nothing when the text is already wide enough |
| PyText.ZFillLength | renderer.py:114 | `zfill` pads to the width and leaves longer text alone |
| PyText.FourDigits | renderer.py:114 | Numbers 0 to 9999 pad to exactly four digits |
| PyPath.JoinKeepsParts | renderer.py:75 | `join(a, b)` ends with `b`, starts with `a` when `b` is relative, and is `b` when `b` is absolute |
| PyPath.JoinRelative | renderer.py:99 | Joining a relative part onto a base without a trailing `/` inserts exactly one `/` |
| PyRange.RangeMembers | renderer.py:88 | For a positive step, the frames are exactly the numbers in `[start, end]` reached in whole steps from `start` |
| PyRange.RangeAscends | renderer.py:88 | For a positive step, the frames start at `start` and ascend one step at a time |
| PyRange.FrameCount | renderer.py:46 | The frame count is 0 for `end < start`, else `(end - start) / step + 1` |
| Seqs.Filter | renderer.py:64-67 | The filtered cameras are objects of the collection satisfying the test, and every object satisfying it is kept |
| Blend.Host.MakeDirs | renderer.py:76 | `os.makedirs` is logged once, after everything before it |
| Blend.Host.ProgressBegin | renderer.py:27 | Opening the progress bar is logged |
| Blend.Host.ProgressEnd | renderer.py:128 | Closing the progress bar is logged |
| Blend.Host.ProgressUpdate | renderer.py:97 | Each progress update is logged with the unit index and the total |
| Blend.Host.RenderStill | renderer.py:122 | Each render call is logged with the camera, output path and frame the scene holds |
| Blend.Host.WriteJson | rig_json_maker.py:106-107 | The JSON file is logged with its path and document |

## Behaviour worth knowing

- The exported entries list their sensors under the key `"cameras"`.
- With no eligible collection the exporter still succeeds: it writes an empty list and
  reports 0 rigs (rig_json_maker.py:55, 104-110).
- With no output path chosen, the exporter fails in `os.makedirs("")` with
  `FileNotFoundError` (rig_json_maker.py:54, 104); the render driver instead cancels on an
  empty path (renderer.py:16-19).
- Restoration is not done on every exit. The scene's `frame_current`, moved by `frame_set`, is
  never restored. On the "No frames to render" exit (renderer.py:49-51), and when counting
  raises on a zero step (renderer.py:46), the progress bar opened at renderer.py:27 is never
  closed. `Renderer.Execute` states these exits as they are.
- Resolution, environment and compositor switching, cancellation and image metadata do not
  appear in the render driver. The model has none of them.

## Left out

- `bpy.path.abspath` is a parameter (`absPath`) of both `Execute` methods. Its resolution
  of `//` against the blend file is host behaviour.
- Rendering, `frame_set`'s evaluation of the scene and the depsgraph's matrix evaluation are
  opaque. A render call is recorded with the camera, output path and frame the scene holds at
  that moment. An evaluated matrix is the symbolic term `Evaluated(name)`.
- `mathutils` inverse, product, quaternion and translation extraction are symbolic terms. The
  model captures the composition order, not the floating-point values.
- Renderer.Execute: the progress value is logged as the pair (unit index, planned total),
  not as the float `current_frame_index / total_frames_to_render * 100`.
- RendererProps.ProgressWithinPlan: it states `0 < index <= total` for that pair, not the
  float percentage being at most 100.0.
- `print` output (renderer.py:96) is left out. The `self.report` messages are modelled as the
  text carried by the outcome.
- Filesystem failures (`os.makedirs`, `open`) and exceptions from Blender are not modelled,
  except `os.makedirs("")` in the exporter. Every other host call succeeds.
- RigJsonMaker.Execute: `M_ref.inverted()` raises `ValueError` for a singular reference
  matrix (rig_json_maker.py:79). Matrices are symbolic terms, so this failure is not modelled.
- `json.dump`'s `indent=4` layout is not modelled. The document is a JSON tree.
- Renderer.Execute: a zero `frame_step` on a counted rig makes `len(range(...))` raise
  `ValueError` (renderer.py:46). It is modelled as the `Raised` outcome, not as an exception
  propagating out of the operator.
- RendererProps.OutputLayout: it states the slash-separated layout only for slash-free names
  and an output base without a trailing slash. Other names go through `Join` as written.
- PyRange.RangeMembers: the ordering and membership lemmas are for positive steps. Negative
  steps are modelled by `RangeLen`/`Range`, but no lemma is stated about their order.
- Object identity (`cam == ref_cam`, rig_json_maker.py:82) is value equality of object records.
- RigJsonMaker.RigEntryShape: it describes the non-reference entries only for collections
  holding each object once, as Blender guarantees.
- A rig's collection is an `Option`. Membership in `bpy.data.collections` is by name
  (renderer.py:58).
- The operators' `invoke` (the file browser), `register`/`unregister`, the panels, the rig
  manager and the EXIF sanity script are host glue or contain no logic of their own. They are
  not part of this model.
