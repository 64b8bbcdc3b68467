/**
 * What the add-on sees of Blender and of the Python runtime around it: scene objects and
 * collections, `mathutils` transforms as symbolic terms, the JSON document `json.dump`
 * writes, and a log of the effects the host performs (directories made, progress bar,
 * render calls, files written).
 */
module Blend {
  import opened Wrappers

  /** A scene object: its unique name, its `type` (`"CAMERA"`, `"MESH"`, ...) and visibility flags. */
  datatype Object = Object(name: string, kind: string, hideRender: bool, hideViewport: bool)

  /** A Blender collection: its name and its directly linked objects, in order. */
  datatype Collection = Collection(name: string, objects: seq<Object>)

  /** The keys of `bpy.data.collections`. */
  function Names(data: seq<Collection>): (names: set<string>)
    ensures forall i :: 0 <= i < |data| ==> data[i].name in names
    ensures forall n :: n in names ==> exists i :: 0 <= i < |data| && data[i].name == n
  {
    set c | c in data :: c.name
  }

  /**
   * A 4x4 transform as the term that produced it: the evaluated world matrix of the named
   * object, the Y-axis mirror `Matrix.Scale(-1, 4, (0, 1, 0))`, `m.inverted()`, or `l @ r`.
   * Floating-point values are not modelled, only the composition.
   */
  datatype Matrix =
    | Evaluated(objectName: string)
    | FlipY
    | Inverted(m: Matrix)
    | Product(left: Matrix, right: Matrix)

  /**
   * A float read out of a matrix: component `part` (`'w'`, `'x'`, `'y'` or `'z'`) of
   * `m.to_quaternion()`, or component `axis` (`'x'`, `'y'` or `'z'`) of `m.to_translation()`.
   */
  datatype Scalar =
    | QuatPart(m: Matrix, part: char)
    | TransPart(m: Matrix, axis: char)

  /** A JSON document; object members keep their insertion order, as `json.dump` writes them. */
  datatype Json =
    | JBool(b: bool)
    | JString(s: string)
    | JNumber(x: Scalar)
    | JArray(items: seq<Json>)
    | JObject(members: seq<(string, Json)>)

  /** One observable action of the host, in the order it happened. */
  datatype Effect =
    | MadeDirs(path: string)
    | ProgressBegan
    | ProgressUpdated(done: nat, total: nat)
    | ProgressEnded
    | RenderedStill(camera: Option<Object>, filepath: string, frame: int)
    | WroteJson(path: string, document: Json)

  /** The filesystem, window manager and render engine, seen through what they were asked to do. */
  class Host {
    ghost var effects: seq<Effect>

    /** `os.makedirs(path, exist_ok=True)`. */
    method MakeDirs(path: string)
      modifies this
      ensures effects == old(effects) + [MadeDirs(path)]
    {
      effects := effects + [MadeDirs(path)];
    }

    /** `window_manager.progress_begin(0, 100)`. */
    method ProgressBegin()
      modifies this
      ensures effects == old(effects) + [ProgressBegan]
    {
      effects := effects + [ProgressBegan];
    }

    /** `window_manager.progress_update(done / total * 100)`. */
    method ProgressUpdate(done: nat, total: nat)
      modifies this
      ensures effects == old(effects) + [ProgressUpdated(done, total)]
    {
      effects := effects + [ProgressUpdated(done, total)];
    }

    /** `window_manager.progress_end()`. */
    method ProgressEnd()
      modifies this
      ensures effects == old(effects) + [ProgressEnded]
    {
      effects := effects + [ProgressEnded];
    }

    /**
     * `bpy.ops.render.render(write_still=True)`: renders the scene as it stands, through
     * its active camera at its current frame, into its output path.
     */
    method RenderStill(camera: Option<Object>, filepath: string, frame: int)
      modifies this
      ensures effects == old(effects) + [RenderedStill(camera, filepath, frame)]
    {
      effects := effects + [RenderedStill(camera, filepath, frame)];
    }

    /** Opens `path` for writing and `json.dump`s `document` into it. */
    method WriteJson(path: string, document: Json)
      modifies this
      ensures effects == old(effects) + [WroteJson(path, document)]
    {
      effects := effects + [WroteJson(path, document)];
    }
  }
}
