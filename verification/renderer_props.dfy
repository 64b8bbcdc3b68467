/**
 * What the render driver promises, stated over the specification functions its methods
 * are proved against: output names, the planned total, the order and content of the render
 * calls, the progress count, and the rendered-rig count.
 */
module RendererProps {
  import opened Wrappers
  import opened PyText
  import opened PyPath
  import opened PyRange
  import opened Blend
  import opened Renderer

  // ----- Output names -----

  /** The frame tag is `str(frame).zfill(4)`: the sign stays in front of the padding. */
  lemma FrameTagIsZFill(frame: int)
    ensures FrameTag(frame) == ZFill(Str(frame), 4)
  {
    StrShape(frame);
    if frame < 0 {
      var d := Digits(-frame);
      DigitsShape(-frame);
      assert IsDigit(d[0]);
      ZFillPads(Str(frame), 4);
      ZFillPads(d, 3);
    }
  }

  /** The zero-padded frame tag reads back as the frame, negative frames included. */
  lemma FrameTagRoundTrip(frame: int)
    ensures IsDecimal(FrameTag(frame)) && ParseInt(FrameTag(frame)) == frame
  {
    FrameTagIsZFill(frame);
    ZFillRoundTrip(frame, 4);
  }

  /** Frames 0 to 9999 get exactly four digits. */
  lemma FrameTagWidth(frame: int)
    requires 0 <= frame < 10000
    ensures |FrameTag(frame)| == 4 && AllDigits(FrameTag(frame))
  {
    FrameTagIsZFill(frame);
    FourDigits(frame);
  }

  /** The file name is `<rig>_image<tag>.<ext>`, the pieces of the f-string in order. */
  lemma FileNameLayout(rigName: string, frame: int, ext: string)
    ensures FileName(rigName, frame, ext) == rigName + "_image" + FrameTag(frame) + "." + ext
  {
    var tag := FrameTag(frame);
    assert Concat([ext]) == ext + Concat([]);
    assert Concat([".", ext]) == "." + Concat([ext]);
    assert Concat([tag, ".", ext]) == tag + Concat([".", ext]);
    assert Concat(["_image", tag, ".", ext]) == "_image" + Concat([tag, ".", ext]);
    assert Concat([rigName, "_image", tag, ".", ext]) == rigName + Concat(["_image", tag, ".", ext]);
  }

  /** Two different frames of one rig never share a file name. */
  lemma DistinctFramesDistinctFiles(rigName: string, f1: int, f2: int, ext: string)
    requires f1 != f2
    ensures FileName(rigName, f1, ext) != FileName(rigName, f2, ext)
  {
    var t1, t2 := FrameTag(f1), FrameTag(f2);
    var pre := rigName + "_image";
    FileNameLayout(rigName, f1, ext);
    FileNameLayout(rigName, f2, ext);
    if FileName(rigName, f1, ext) == FileName(rigName, f2, ext) {
      var n := FileName(rigName, f1, ext);
      assert n == pre + t1 + "." + ext == pre + t2 + "." + ext;
      assert |t1| == |t2|;
      assert t1 == n[|pre|..|pre| + |t1|] == t2;
      FrameTagRoundTrip(f1);
      FrameTagRoundTrip(f2);
      assert false;
    }
  }

  /** A rig or camera name that is a single path component. */
  predicate PlainName(name: string) {
    name != [] && forall i :: 0 <= i < |name| ==> name[i] != '/'
  }

  /**
   * With plain names and an output directory not ending in `/`, the render target is
   * `<out>/<rig>/<cam>/<rig>_image<tag>.<ext>`.
   */
  lemma OutputLayout(out: string, rigName: string, camName: string, frame: int, ext: string)
    requires out != [] && out[|out| - 1] != '/'
    requires PlainName(rigName) && PlainName(camName)
    ensures CameraFolder(out, rigName, camName) == out + "/" + rigName + "/" + camName
    ensures OutputPath(out, rigName, camName, frame, ext)
         == out + "/" + rigName + "/" + camName + "/" + FileName(rigName, frame, ext)
  {
    JoinRelative(out, rigName);
    var rigFolder := out + "/" + rigName;
    assert rigFolder[|rigFolder| - 1] == rigName[|rigName| - 1];
    JoinRelative(rigFolder, camName);
    var camFolder := rigFolder + "/" + camName;
    assert camFolder[|camFolder| - 1] == camName[|camName| - 1];
    var name := FileName(rigName, frame, ext);
    FileNameLayout(rigName, frame, ext);
    assert name[0] == rigName[0];
    JoinRelative(camFolder, name);
  }

  // ----- The planned total -----

  /**
   * For a positive step, a counted rig adds its frame count times its camera count,
   * the frame count being 0 for an empty range and `(end - start) / step + 1` otherwise.
   */
  lemma PlannedWorkFormula(rig: RigItem)
    requires rig.frameStep >= 1
    ensures PlannedWork(rig)
         == if !Planned(rig) then 0
            else (if rig.endFrame < rig.startFrame then 0 else (rig.endFrame - rig.startFrame) / rig.frameStep + 1)
                 * |RenderCameras(rig.collection.value)|
  {
    FrameCount(rig.startFrame, rig.endFrame, rig.frameStep);
  }

  /** Two sample ranges: frames 1..250 by 10, and the single frame 1. */
  lemma FrameCountExamples()
    ensures RangeLen(1, 250 + 1, 10) == 25
    ensures RangeLen(1, 1 + 1, 1) == 1
  {
    FrameCount(1, 250, 10);
    FrameCount(1, 1, 1);
  }

  /** The units of `frames` rounds of `cams` cameras are their product. */
  lemma {:induction false} TallyIsProduct(frames: nat, cams: nat)
    ensures Tally(frames, cams) == frames * cams
  {
    if frames > 0 {
      TallyIsProduct(frames - 1, cams);
      assert frames * cams == (frames - 1) * cams + cams;
    }
  }

  lemma {:induction false} PlannedUnitsAppend(rigs: seq<RigItem>, rig: RigItem)
    requires AllSteppable(rigs) && Steppable(rig)
    ensures AllSteppable(rigs + [rig])
    ensures PlannedUnits(rigs + [rig]) == PlannedUnits(rigs) + PlannedWork(rig)
  {
    assert (rigs + [rig])[..|rigs|] == rigs;
  }

  /** Counting raises exactly when some counted rig has a zero step. */
  lemma PlannedTotalRaises(rigs: seq<RigItem>)
    ensures PlannedTotal(rigs).Err? <==> exists i :: 0 <= i < |rigs| && Planned(rigs[i]) && rigs[i].frameStep == 0
  {
  }

  /** The planned total is zero exactly when every counted rig has an empty frame range. */
  lemma {:induction false} PlannedZeroIff(rigs: seq<RigItem>)
    requires AllSteppable(rigs)
    ensures PlannedUnits(rigs) == 0
        <==> forall i :: 0 <= i < |rigs| && Planned(rigs[i]) ==> |Frames(rigs[i])| == 0
    decreases |rigs|
  {
    if rigs != [] {
      var before := rigs[..|rigs| - 1];
      var last := rigs[|rigs| - 1];
      assert AllSteppable(before);
      PlannedZeroIff(before);
      if Planned(last) {
        var n, c := RangeLen(last.startFrame, last.endFrame + 1, last.frameStep), |RenderCameras(last.collection.value)|;
        assert c > 0;
        TallyIsProduct(n, c);
        assert n * c == 0 <==> n == 0 by {
          if n > 0 {
            TallyIsProduct(n, c);
            assert Tally(n, c) >= c;
          }
        }
      }
      forall i | 0 <= i < |before| ensures before[i] == rigs[i] {
      }
    }
  }

  // ----- Units rendered against units planned -----

  /** A rig the loops render is a rig the count included, with as many units as it was counted for. */
  lemma RigUnitsWithinPlan(rig: RigItem, data: seq<Collection>)
    requires Steppable(rig)
    ensures RigUnits(rig, data) <= PlannedWork(rig)
    ensures Present(rig, data) ==> RigUnits(rig, data) == PlannedWork(rig)
    ensures RendersRig(rig, data) ==> Planned(rig)
  {
    if Planned(rig) {
      TallyIsProduct(|Frames(rig)|, |RenderCameras(rig.collection.value)|);
    }
  }

  /** Every rig whose collection is set is also in `bpy.data.collections`. */
  predicate AllPresent(rigs: seq<RigItem>, data: seq<Collection>) {
    forall i :: 0 <= i < |rigs| && rigs[i].collection.Some? ==> Present(rigs[i], data)
  }

  /**
   * `total_frames` never exceeds `total_frames_to_render`, and equals it when every rig's
   * collection is present in `bpy.data`.
   */
  lemma {:induction false} DoneWithinPlanned(rigs: seq<RigItem>, data: seq<Collection>)
    requires AllSteppable(rigs)
    ensures DoneUnits(rigs, data) <= PlannedUnits(rigs)
    ensures AllPresent(rigs, data) ==> DoneUnits(rigs, data) == PlannedUnits(rigs)
    decreases |rigs|
  {
    if rigs != [] {
      var before := rigs[..|rigs| - 1];
      assert AllSteppable(before);
      DoneWithinPlanned(before, data);
      RigUnitsWithinPlan(rigs[|rigs| - 1], data);
      if AllPresent(rigs, data) {
        assert AllPresent(before, data) by {
          forall i | 0 <= i < |before| && before[i].collection.Some? ensures Present(before[i], data) {
            assert before[i] == rigs[i];
          }
        }
      }
    }
  }

  // ----- The rendered-rig count -----

  /** `rendered_count` is 0 exactly when no rig is present, marked for rendering and holding a camera. */
  lemma {:induction false} NoRigRenderedIff(rigs: seq<RigItem>, data: seq<Collection>)
    ensures RenderedRigs(rigs, data) == 0 <==> forall i :: 0 <= i < |rigs| ==> !RendersRig(rigs[i], data)
    decreases |rigs|
  {
    if rigs != [] {
      var before := rigs[..|rigs| - 1];
      NoRigRenderedIff(before, data);
      forall i | 0 <= i < |before| ensures before[i] == rigs[i] {
      }
    }
  }

  /** `rendered_count` never exceeds the number of rig items. */
  lemma {:induction false} RenderedRigsBound(rigs: seq<RigItem>, data: seq<Collection>)
    ensures RenderedRigs(rigs, data) <= |rigs|
    decreases |rigs|
  {
    if rigs != [] {
      RenderedRigsBound(rigs[..|rigs| - 1], data);
    }
  }

  // ----- The order and content of the effect log -----

  /** The camera loop adds two entries per camera and keeps what was logged before. */
  lemma {:induction false} CameraPassExtends(log: seq<Effect>, out: string, rigName: string, cams: seq<Object>,
                                             frame: int, ext: string, done: nat, total: nat)
    ensures var r := CameraPass(log, out, rigName, cams, frame, ext, done, total);
            |r| == |log| + 2 * |cams| && r[..|log|] == log
    decreases |cams|
  {
    if cams != [] {
      CameraPassExtends(log, out, rigName, cams[..|cams| - 1], frame, ext, done, total);
    }
  }

  /**
   * At the camera loop for one frame, entry pair `j` is the progress update numbering unit
   * `done + j + 1`, then the render through `cams[j]` into its output path at that frame.
   */
  lemma {:induction false} CameraPassAt(log: seq<Effect>, out: string, rigName: string, cams: seq<Object>,
                                        frame: int, ext: string, done: nat, total: nat, j: nat)
    requires j < |cams|
    ensures var r := CameraPass(log, out, rigName, cams, frame, ext, done, total);
            |log| + 2 * j + 1 < |r|
            && r[|log| + 2 * j] == ProgressUpdated(done + j + 1, total)
            && r[|log| + 2 * j + 1] == RenderedStill(Some(cams[j]), OutputPath(out, rigName, cams[j].name, frame, ext), frame)
    decreases |cams|
  {
    var before := cams[..|cams| - 1];
    CameraPassExtends(log, out, rigName, before, frame, ext, done, total);
    if j < |cams| - 1 {
      CameraPassAt(log, out, rigName, before, frame, ext, done, total, j);
      assert before[j] == cams[j];
    }
  }

  /** The frame loop adds two entries per unit and keeps what was logged before. */
  lemma {:induction false} FramePassExtends(log: seq<Effect>, out: string, rigName: string, cams: seq<Object>,
                                            frames: seq<int>, ext: string, done: nat, total: nat)
    ensures var r := FramePass(log, out, rigName, cams, frames, ext, done, total);
            |r| == |log| + 2 * Tally(|frames|, |cams|) && r[..|log|] == log
    decreases |frames|
  {
    if frames != [] {
      var first := CameraPass(log, out, rigName, cams, frames[0], ext, done, total);
      CameraPassExtends(log, out, rigName, cams, frames[0], ext, done, total);
      FramePassExtends(first, out, rigName, cams, frames[1..], ext, done + |cams|, total);
      TallyFront(|frames| - 1, |cams|);
      var r := FramePass(log, out, rigName, cams, frames, ext, done, total);
      assert r[..|first|][..|log|] == r[..|log|];
    }
  }

  /** Counting one round first or last gives the same tally. */
  lemma {:induction false} TallyFront(n: nat, c: nat)
    ensures Tally(n + 1, c) == c + Tally(n, c)
  {
  }

  /** Running the frame loop over `a + b` is running it over `a`, then over `b` from where it stopped. */
  lemma {:induction false} FramePassAppend(log: seq<Effect>, out: string, rigName: string, cams: seq<Object>,
                                           a: seq<int>, b: seq<int>, ext: string, done: nat, total: nat)
    ensures FramePass(log, out, rigName, cams, a + b, ext, done, total)
         == FramePass(FramePass(log, out, rigName, cams, a, ext, done, total), out, rigName, cams, b, ext,
                      done + Tally(|a|, |cams|), total)
    decreases |a|
  {
    if a == [] {
      assert a + b == b;
    } else {
      var first := CameraPass(log, out, rigName, cams, a[0], ext, done, total);
      assert (a + b)[0] == a[0] && (a + b)[1..] == a[1..] + b;
      FramePassAppend(first, out, rigName, cams, a[1..], b, ext, done + |cams|, total);
      TallyFront(|a| - 1, |cams|);
    }
  }

  /**
   * One more frame at the end of the range adds one more camera loop after the log so far,
   * numbering its units after every unit of the earlier frames: frames are rendered in the
   * order given, each as one whole camera loop.
   */
  lemma FramePassSnoc(log: seq<Effect>, out: string, rigName: string, cams: seq<Object>,
                      frames: seq<int>, frame: int, ext: string, done: nat, total: nat)
    ensures FramePass(log, out, rigName, cams, frames + [frame], ext, done, total)
         == CameraPass(FramePass(log, out, rigName, cams, frames, ext, done, total), out, rigName, cams, frame, ext,
                       done + Tally(|frames|, |cams|), total)
  {
    FramePassAppend(log, out, rigName, cams, frames, [frame], ext, done, total);
    var before := FramePass(log, out, rigName, cams, frames, ext, done, total);
    var d := done + Tally(|frames|, |cams|);
    assert [frame][1..] == [];
    assert FramePass(before, out, rigName, cams, [frame], ext, d, total)
        == FramePass(CameraPass(before, out, rigName, cams, frame, ext, d, total), out, rigName, cams, [], ext, d + |cams|, total);
  }

  /** The number of render calls among the first `n` entries of a log. */
  function Renders(effects: seq<Effect>, n: nat): nat
    requires n <= |effects|
    decreases n
  {
    if n == 0 then 0 else Renders(effects, n - 1) + (if effects[n - 1].RenderedStill? then 1 else 0)
  }

  /** The number of render calls in a log. */
  function RenderCount(effects: seq<Effect>): nat {
    Renders(effects, |effects|)
  }

  lemma {:induction false} RendersPrefix(s: seq<Effect>, t: seq<Effect>, n: nat)
    requires n <= |s|
    ensures Renders(s + t, n) == Renders(s, n)
    decreases n
  {
    if n > 0 {
      RendersPrefix(s, t, n - 1);
      assert (s + t)[n - 1] == s[n - 1];
    }
  }

  lemma RenderCountAppend(effects: seq<Effect>, e: Effect)
    ensures RenderCount(effects + [e]) == RenderCount(effects) + (if e.RenderedStill? then 1 else 0)
  {
    RendersPrefix(effects, [e], |effects|);
  }

  lemma {:induction false} CameraPassRenders(log: seq<Effect>, out: string, rigName: string, cams: seq<Object>,
                                             frame: int, ext: string, done: nat, total: nat)
    ensures RenderCount(CameraPass(log, out, rigName, cams, frame, ext, done, total)) == RenderCount(log) + |cams|
    decreases |cams|
  {
    if cams != [] {
      var before := cams[..|cams| - 1];
      var cam := cams[|cams| - 1];
      var prior := CameraPass(log, out, rigName, before, frame, ext, done, total);
      CameraPassRenders(log, out, rigName, before, frame, ext, done, total);
      RenderCountAppend(prior, ProgressUpdated(done + |cams|, total));
      RenderCountAppend(prior + [ProgressUpdated(done + |cams|, total)],
                        RenderedStill(Some(cam), OutputPath(out, rigName, cam.name, frame, ext), frame));
    }
  }

  lemma {:induction false} FramePassRenders(log: seq<Effect>, out: string, rigName: string, cams: seq<Object>,
                                            frames: seq<int>, ext: string, done: nat, total: nat)
    ensures RenderCount(FramePass(log, out, rigName, cams, frames, ext, done, total))
         == RenderCount(log) + Tally(|frames|, |cams|)
    decreases |frames|
  {
    if frames != [] {
      var first := CameraPass(log, out, rigName, cams, frames[0], ext, done, total);
      TallyFront(|frames| - 1, |cams|);
      CameraPassRenders(log, out, rigName, cams, frames[0], ext, done, total);
      FramePassRenders(first, out, rigName, cams, frames[1..], ext, done + |cams|, total);
      var rest := FramePass(first, out, rigName, cams, frames[1..], ext, done + |cams|, total);
      assert FramePass(log, out, rigName, cams, frames, ext, done, total) == rest;
      calc {
        RenderCount(rest);
        RenderCount(first) + Tally(|frames| - 1, |cams|);
        RenderCount(log) + Tally(|frames|, |cams|);
      }
    }
  }

  lemma {:induction false} FolderPassRenders(log: seq<Effect>, out: string, rigName: string, cams: seq<Object>)
    ensures RenderCount(FolderPass(log, out, rigName, cams)) == RenderCount(log)
    decreases |cams|
  {
    if cams != [] {
      var before := cams[..|cams| - 1];
      FolderPassRenders(log, out, rigName, before);
      RenderCountAppend(FolderPass(log, out, rigName, before), MadeDirs(CameraFolder(out, rigName, cams[|cams| - 1].name)));
    }
  }

  lemma RigPassRenders(log: seq<Effect>, out: string, rig: RigItem, data: seq<Collection>, ext: string,
                       done: nat, total: nat)
    requires Steppable(rig)
    ensures RenderCount(RigPass(log, out, rig, data, ext, done, total)) == RenderCount(log) + RigUnits(rig, data)
  {
    if Present(rig, data) {
      var cams := RenderCameras(rig.collection.value);
      if cams != [] {
        FolderPassRenders(log, out, rig.name, cams);
        var folders := if rig.includeInJson then FolderPass(log, out, rig.name, cams) else log;
        if rig.doRender {
          FramePassRenders(folders, out, rig.name, cams, Frames(rig), ext, done, total);
        }
      }
    }
  }

  /** The walk issues one render call per unit counted in `total_frames`. */
  lemma {:induction false} WalkRenders(log: seq<Effect>, out: string, rigs: seq<RigItem>, data: seq<Collection>,
                                       ext: string, total: nat)
    requires AllSteppable(rigs)
    ensures RenderCount(Walk(log, out, rigs, data, ext, total)) == RenderCount(log) + DoneUnits(rigs, data)
    decreases |rigs|
  {
    if rigs != [] {
      var before := rigs[..|rigs| - 1];
      assert AllSteppable(before);
      WalkRenders(log, out, before, data, ext, total);
      RigPassRenders(Walk(log, out, before, data, ext, total), out, rigs[|rigs| - 1], data, ext, DoneUnits(before, data), total);
    }
  }

  // ----- The progress bar -----

  /** A progress update reports a unit between 1 and `bound`, out of `bound`: at most 100 percent. */
  predicate Within(e: Effect, bound: nat) {
    e.ProgressUpdated? ==> 0 < e.done <= bound && e.total == bound
  }

  /** Every entry at index `from` or later is within `bound`. */
  predicate UpdatesWithin(s: seq<Effect>, from: nat, bound: nat) {
    forall i :: from <= i < |s| ==> Within(s[i], bound)
  }

  lemma {:induction false} CameraPassProgress(log: seq<Effect>, out: string, rigName: string, cams: seq<Object>,
                                              frame: int, ext: string, done: nat, total: nat, from: nat)
    requires UpdatesWithin(log, from, total) && done + |cams| <= total
    ensures UpdatesWithin(CameraPass(log, out, rigName, cams, frame, ext, done, total), from, total)
    decreases |cams|
  {
    if cams != [] {
      CameraPassProgress(log, out, rigName, cams[..|cams| - 1], frame, ext, done, total, from);
    }
  }

  lemma {:induction false} FramePassProgress(log: seq<Effect>, out: string, rigName: string, cams: seq<Object>,
                                             frames: seq<int>, ext: string, done: nat, total: nat, from: nat)
    requires UpdatesWithin(log, from, total) && done + Tally(|frames|, |cams|) <= total
    ensures UpdatesWithin(FramePass(log, out, rigName, cams, frames, ext, done, total), from, total)
    decreases |frames|
  {
    if frames != [] {
      var first := CameraPass(log, out, rigName, cams, frames[0], ext, done, total);
      TallyFront(|frames| - 1, |cams|);
      CameraPassProgress(log, out, rigName, cams, frames[0], ext, done, total, from);
      FramePassProgress(first, out, rigName, cams, frames[1..], ext, done + |cams|, total, from);
      assert FramePass(log, out, rigName, cams, frames, ext, done, total)
          == FramePass(first, out, rigName, cams, frames[1..], ext, done + |cams|, total);
    }
  }

  lemma {:induction false} FolderPassProgress(log: seq<Effect>, out: string, rigName: string, cams: seq<Object>,
                                              from: nat, total: nat)
    requires UpdatesWithin(log, from, total)
    ensures UpdatesWithin(FolderPass(log, out, rigName, cams), from, total)
    decreases |cams|
  {
    if cams != [] {
      FolderPassProgress(log, out, rigName, cams[..|cams| - 1], from, total);
    }
  }

  lemma RigPassProgress(log: seq<Effect>, out: string, rig: RigItem, data: seq<Collection>, ext: string,
                        done: nat, total: nat, from: nat)
    requires Steppable(rig) && UpdatesWithin(log, from, total) && done + RigUnits(rig, data) <= total
    ensures UpdatesWithin(RigPass(log, out, rig, data, ext, done, total), from, total)
  {
    if Present(rig, data) {
      var cams := RenderCameras(rig.collection.value);
      if cams != [] {
        FolderPassProgress(log, out, rig.name, cams, from, total);
        var folders := if rig.includeInJson then FolderPass(log, out, rig.name, cams) else log;
        if rig.doRender {
          FramePassProgress(folders, out, rig.name, cams, Frames(rig), ext, done, total, from);
        }
      }
    }
  }

  lemma {:induction false} WalkProgress(log: seq<Effect>, out: string, rigs: seq<RigItem>, data: seq<Collection>,
                                        ext: string, total: nat, from: nat)
    requires AllSteppable(rigs) && UpdatesWithin(log, from, total) && DoneUnits(rigs, data) <= total
    ensures UpdatesWithin(Walk(log, out, rigs, data, ext, total), from, total)
    decreases |rigs|
  {
    if rigs != [] {
      var before := rigs[..|rigs| - 1];
      assert AllSteppable(before);
      WalkProgress(log, out, before, data, ext, total, from);
      RigPassProgress(Walk(log, out, before, data, ext, total), out, rigs[|rigs| - 1], data, ext,
                      DoneUnits(before, data), total, from);
    }
  }

  /**
   * With the planned total as denominator, every progress update the walk issues reports a
   * unit between 1 and the total: `current_frame_index` never passes
   * `total_frames_to_render`, and the bar never passes 100 percent.
   */
  lemma ProgressWithinPlan(log: seq<Effect>, out: string, rigs: seq<RigItem>, data: seq<Collection>, ext: string)
    requires AllSteppable(rigs)
    ensures var r := Walk(log + [ProgressBegan], out, rigs, data, ext, PlannedUnits(rigs));
            forall i :: |log| <= i < |r| && r[i].ProgressUpdated? ==> 0 < r[i].done <= r[i].total == PlannedUnits(rigs)
  {
    DoneWithinPlanned(rigs, data);
    WalkProgress(log + [ProgressBegan], out, rigs, data, ext, PlannedUnits(rigs), |log|);
  }

  // ----- Camera folders -----

  lemma {:induction false} FolderPassAt(log: seq<Effect>, out: string, rigName: string, cams: seq<Object>, j: nat)
    requires j < |cams|
    ensures var r := FolderPass(log, out, rigName, cams);
            |r| == |log| + |cams| && r[..|log|] == log && r[|log| + j] == MadeDirs(CameraFolder(out, rigName, cams[j].name))
    decreases |cams|
  {
    var before := cams[..|cams| - 1];
    var prior := FolderPass(log, out, rigName, before);
    if j < |cams| - 1 {
      FolderPassAt(log, out, rigName, before, j);
      assert before[j] == cams[j];
    } else if before != [] {
      FolderPassAt(log, out, rigName, before, 0);
    }
    assert (prior + [MadeDirs(CameraFolder(out, rigName, cams[|cams| - 1].name))])[..|log|] == prior[..|log|];
  }

  /**
   * For a rig present with a camera and included in the JSON, the loop body first makes one
   * folder per camera, in collection order, whether or not the rig is marked for rendering.
   */
  lemma FoldersRegardlessOfRender(log: seq<Effect>, out: string, rig: RigItem, data: seq<Collection>, ext: string,
                                  done: nat, total: nat, j: nat)
    requires Steppable(rig) && Present(rig, data) && rig.includeInJson
    requires j < |RenderCameras(rig.collection.value)|
    ensures var r := RigPass(log, out, rig, data, ext, done, total);
            var cams := RenderCameras(rig.collection.value);
            |log| + j < |r| && r[|log| + j] == MadeDirs(CameraFolder(out, rig.name, cams[j].name))
  {
    var cams := RenderCameras(rig.collection.value);
    var folders := FolderPass(log, out, rig.name, cams);
    FolderPassAt(log, out, rig.name, cams, j);
    if rig.doRender {
      var r := FramePass(folders, out, rig.name, cams, Frames(rig), ext, done, total);
      FramePassExtends(folders, out, rig.name, cams, Frames(rig), ext, done, total);
      assert r[|log| + j] == r[..|folders|][|log| + j];
    }
  }

  // ----- Where the scene camera and output path are left -----

  /** The camera loop leaves the scene on its last camera, pointed at that camera's file. */
  lemma {:induction false} CameraTargetLast(out: string, rigName: string, cams: seq<Object>, frame: int, ext: string,
                                            before: Target)
    ensures CameraTarget(out, rigName, cams, frame, ext, before)
         == if cams == [] then before
            else Target(Some(cams[|cams| - 1]), OutputPath(out, rigName, cams[|cams| - 1].name, frame, ext))
    decreases |cams|
  {
    if |cams| > 1 {
      var t := Target(Some(cams[0]), OutputPath(out, rigName, cams[0].name, frame, ext));
      CameraTargetLast(out, rigName, cams[1..], frame, ext, t);
      assert cams[1..][|cams| - 2] == cams[|cams| - 1];
    }
  }

  /**
   * The frame loop leaves the scene on the last camera at the last frame; with no camera or
   * no frame it leaves the camera and output path as they were.
   */
  lemma {:induction false} FrameTargetLast(out: string, rigName: string, cams: seq<Object>, frames: seq<int>, ext: string,
                                           before: Target)
    ensures FrameTarget(out, rigName, cams, frames, ext, before)
         == if cams == [] || frames == [] then before
            else Target(Some(cams[|cams| - 1]), OutputPath(out, rigName, cams[|cams| - 1].name, frames[|frames| - 1], ext))
    decreases |frames|
  {
    if frames != [] {
      var t := CameraTarget(out, rigName, cams, frames[0], ext, before);
      CameraTargetLast(out, rigName, cams, frames[0], ext, before);
      FrameTargetLast(out, rigName, cams, frames[1..], ext, t);
      if |frames| > 1 {
        assert frames[1..][|frames| - 2] == frames[|frames| - 1];
      }
    }
  }

  /** After the frame loop the scene points at the camera and file of the last still rendered. */
  lemma FrameTargetIsLastRender(log: seq<Effect>, out: string, rigName: string, cams: seq<Object>, frames: seq<int>,
                                ext: string, done: nat, total: nat, before: Target)
    requires cams != [] && frames != []
    ensures var r := FramePass(log, out, rigName, cams, frames, ext, done, total);
            var t := FrameTarget(out, rigName, cams, frames, ext, before);
            |r| > |log| && r[|r| - 1] == RenderedStill(t.camera, t.filepath, frames[|frames| - 1])
  {
    var init := frames[..|frames| - 1];
    var last := frames[|frames| - 1];
    assert frames == init + [last];
    FramePassSnoc(log, out, rigName, cams, init, last, ext, done, total);
    FramePassExtends(log, out, rigName, cams, init, ext, done, total);
    var prior := FramePass(log, out, rigName, cams, init, ext, done, total);
    CameraPassAt(prior, out, rigName, cams, last, ext, done + Tally(|init|, |cams|), total, |cams| - 1);
    CameraPassExtends(prior, out, rigName, cams, last, ext, done + Tally(|init|, |cams|), total);
    FrameTargetLast(out, rigName, cams, frames, ext, before);
  }

  /**
   * A rig that renders at least one frame leaves the scene pointed at its last still; any
   * other rig leaves the camera and output path as they were.
   */
  lemma RigTargetIsLastRender(log: seq<Effect>, out: string, rig: RigItem, data: seq<Collection>, ext: string,
                              done: nat, total: nat, before: Target)
    requires Steppable(rig)
    ensures var r := RigPass(log, out, rig, data, ext, done, total);
            var t := RigTarget(out, rig, data, ext, before);
            if RendersRig(rig, data) && Frames(rig) != [] then
              |r| > |log| && r[|r| - 1] == RenderedStill(t.camera, t.filepath, Frames(rig)[|Frames(rig)| - 1])
            else t == before
  {
    if RendersRig(rig, data) {
      var cams := RenderCameras(rig.collection.value);
      var frames := Frames(rig);
      var folders := if rig.includeInJson then FolderPass(log, out, rig.name, cams) else log;
      var r := FramePass(folders, out, rig.name, cams, frames, ext, done, total);
      var t := FrameTarget(out, rig.name, cams, frames, ext, before);
      assert RigPass(log, out, rig, data, ext, done, total) == r;
      assert RigTarget(out, rig, data, ext, before) == t;
      if frames != [] {
        FrameTargetIsLastRender(folders, out, rig.name, cams, frames, ext, done, total, before);
        if rig.includeInJson {
          FolderPassAt(log, out, rig.name, cams, 0);
        }
        assert |folders| >= |log|;
      } else {
        FrameTargetLast(out, rig.name, cams, frames, ext, before);
      }
    }
  }
}
