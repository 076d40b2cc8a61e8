/**
 * The Unity component that drives the plugin: its settings, the commands
 * its property setters send, and the per-frame Update that turns the
 * plugin's published model frame into the sub-meshes Unity renders.
 *
 * Calls into the plugin are not visible here. CheckNewModel and
 * StartRetrievingModel become Update's parameters (whether a new model is
 * ready, the frame's ints and its quad count); SetInternalData becomes an
 * append to sentCommands, the log of every command string sent, oldest first.
 */
module VSpherePlugin {
  import opened MeshLayout
  import opened SphereCommands

  class VSphere {
    var paused: bool
    var fullRays: bool
    var previewEnabled: bool
    var previewType: int
    var previewWindowVariant: int
    var previewWindowOrderOffset: int
    var settingsApplied: bool
    var quadCount: nat
    /** Every string passed to SetInternalData, oldest first. */
    var sentCommands: seq<string>
    /** What each of the sub-meshes holds. */
    var sphereMesh: seq<SubMesh>

    ghost predicate Valid()
      reads this
    {
      |sphereMesh| == MaxSphereSubObjects
    }

    /** The field initialisers, and the sub-meshes InitializeSubmesh creates empty. */
    constructor ()
      ensures Valid()
      ensures !paused && !fullRays && previewEnabled && !settingsApplied
      ensures previewType == 5 && previewWindowVariant == 2 && previewWindowOrderOffset == 0
      ensures quadCount == 0 && sentCommands == []
      ensures forall s :: 0 <= s < |sphereMesh| ==> sphereMesh[s] == ClearedMesh
    {
      paused := false;
      fullRays := false;
      previewEnabled := true;
      previewType := 5;
      previewWindowVariant := 2;
      previewWindowOrderOffset := 0;
      settingsApplied := false;
      quadCount := 0;
      sentCommands := [];
      sphereMesh := seq(MaxSphereSubObjects, _ => ClearedMesh);
    }

    /** The command the PreviewEnabled setter sends: variant 0 when disabled, else the current variant. */
    function PreviewEnabledCommand(enabled: bool): Command
      reads this
    {
      PreviewWindowVariant(if enabled then previewWindowVariant else 0)
    }

    /** The commands ApplySettings sends, in order, for the current settings. */
    function SettingsReplay(): (r: seq<string>)
      reads this
    {
      [ Text(FullRays(fullRays)),
        Text(PreviewEnabledCommand(previewEnabled)),
        Text(PreviewType(previewType)),
        Text(PreviewWindowVariant(previewWindowVariant)),
        Text(PreviewWindowOrderOffset(previewWindowOrderOffset)) ]
    }

    /**
     * The replay sends the stored variant last: with the preview disabled,
     * the "variant 0" that PreviewEnabled sends is followed by the stored,
     * possibly non-zero, variant.
     */
    lemma ReplayEndsWithStoredVariant()
      ensures |SettingsReplay()| == 5
      ensures !previewEnabled ==> SettingsReplay()[1] == VariantPrefix + "0"
      ensures SettingsReplay()[3] == Text(PreviewWindowVariant(previewWindowVariant))
      ensures !HasPrefix(SettingsReplay()[4], VariantPrefix)
    {
      assert IntToString(0) == "0";
      var last := Text(PreviewWindowOrderOffset(previewWindowOrderOffset));
      assert last[15] == 'o' && VariantPrefix[15] == 'v';
    }

    method SetFullRays(value: bool)
      modifies this`fullRays, this`sentCommands
      ensures fullRays == value
      ensures sentCommands == old(sentCommands) + [Text(FullRays(value))]
    {
      sentCommands := sentCommands + [Text(FullRays(value))];
      fullRays := value;
    }

    /** Pausing only stops Update; it sends nothing to the plugin. */
    method SetPaused(value: bool)
      modifies this`paused
      ensures paused == value
    {
      paused := value;
    }

    method SetPreviewType(value: int)
      modifies this`previewType, this`sentCommands
      ensures previewType == value
      ensures sentCommands == old(sentCommands) + [Text(PreviewType(value))]
    {
      previewType := value;
      sentCommands := sentCommands + [Text(PreviewType(previewType))];
    }

    method SetPreviewWindowOrderOffset(value: int)
      modifies this`previewWindowOrderOffset, this`sentCommands
      ensures previewWindowOrderOffset == value
      ensures sentCommands == old(sentCommands) + [Text(PreviewWindowOrderOffset(value))]
    {
      previewWindowOrderOffset := value;
      sentCommands := sentCommands + [Text(PreviewWindowOrderOffset(previewWindowOrderOffset))];
    }

    /**
     * Enabling or disabling the preview window: disabled is sent as variant 0,
     * enabled as the current variant, which itself is left as it was.
     */
    method SetPreviewEnabled(value: bool)
      modifies this`previewEnabled, this`sentCommands
      ensures previewEnabled == value
      ensures sentCommands == old(sentCommands) +
        [Text(PreviewWindowVariant(if value then previewWindowVariant else 0))]
    {
      previewEnabled := value;
      if !previewEnabled {
        sentCommands := sentCommands + [VariantPrefix + "0"];
      } else {
        sentCommands := sentCommands + [VariantPrefix + IntToString(previewWindowVariant)];
      }
    }

    method SetPreviewWindowVariant(value: int)
      modifies this`previewWindowVariant, this`sentCommands
      ensures previewWindowVariant == value
      ensures sentCommands == old(sentCommands) + [Text(PreviewWindowVariant(value))]
    {
      previewWindowVariant := value;
      sentCommands := sentCommands + [VariantPrefix + IntToString(previewWindowVariant)];
    }

    /** Re-sends every setting through its own setter, with the value it already has. */
    method ApplySettings()
      modifies this`fullRays, this`previewEnabled, this`previewType
      modifies this`previewWindowVariant, this`previewWindowOrderOffset, this`sentCommands
      ensures fullRays == old(fullRays) && previewEnabled == old(previewEnabled)
      ensures previewType == old(previewType) && previewWindowVariant == old(previewWindowVariant)
      ensures previewWindowOrderOffset == old(previewWindowOrderOffset)
      ensures sentCommands == old(sentCommands) + old(SettingsReplay())
    {
      SetFullRays(fullRays);
      SetPreviewEnabled(previewEnabled);
      SetPreviewType(previewType);
      SetPreviewWindowVariant(previewWindowVariant);
      SetPreviewWindowOrderOffset(previewWindowOrderOffset);
    }

    /** The polygon count the GUI shows: 4 * quadCount / 3, rounded down. */
    function PolygonCount(): (n: nat)
      reads this
      ensures 3 * n <= 4 * quadCount < 3 * n + 3
    {
      (quadCount * 4) / 3
    }

    /**
     * Once a frame is shown, its sub-meshes draw 4 * quadCount triangles, and
     * the polygon count is a third of that, rounded down.
     */
    lemma PolygonCountOfFrame(data: seq<int>)
      requires 20 * quadCount <= |data| && SubMeshCount(quadCount) <= MaxSphereSubObjects
      requires sphereMesh == FrameMeshes(data, quadCount)
      ensures MeshTriangles(sphereMesh) == 4 * quadCount
      ensures PolygonCount() == MeshTriangles(sphereMesh) / 3
    {
      FrameTriangleCount(data, quadCount);
    }

    /**
     * The part of Update after the settings: record the quad count, clear
     * every sub-mesh, decode the frame and give each used sub-mesh its
     * arrays.
     */
    method ShowFrame(quadsData: seq<int>, count: nat)
      requires Valid()
      requires 20 * count <= |quadsData|
      requires SubMeshCount(count) <= MaxSphereSubObjects
      modifies this`quadCount, this`sphereMesh
      ensures Valid()
      ensures quadCount == count && sphereMesh == FrameMeshes(quadsData, count)
    {
      quadCount := count;
      for s := 0 to MaxSphereSubObjects
        modifies this`sphereMesh
        invariant |sphereMesh| == MaxSphereSubObjects
        invariant forall t :: 0 <= t < s ==> sphereMesh[t] == ClearedMesh
      {
        sphereMesh := sphereMesh[s := ClearedMesh];
      }

      assert 20 * count <= MaxInt32 by {
        assert 4 * count <= 64000 * SubMeshCount(count);
      }
      var vertices, uv, consumed := DecodeModel(quadsData, count);

      sphereMesh := AttachSubMeshes(sphereMesh, quadsData, count, vertices, uv);
    }

    /**
     * One Unity update. Nothing happens while paused or when no new model is
     * ready. Otherwise the settings are sent once, on the first model, and
     * the frame of count quads is decoded into the sub-meshes: all of them
     * are cleared, then the first SubMeshCount(count) get their vertices,
     * texture coordinates and triangles.
     */
    method Update(newModel: bool, quadsData: seq<int>, count: nat)
      requires Valid()
      requires !paused && newModel ==> 20 * count <= |quadsData|
      requires !paused && newModel ==> SubMeshCount(count) <= MaxSphereSubObjects
      modifies this
      ensures Valid()
      ensures old(paused) || !newModel ==> unchanged(this)
      ensures !old(paused) && newModel ==>
        && settingsApplied
        && quadCount == count
        && sphereMesh == FrameMeshes(quadsData, count)
        && sentCommands == old(sentCommands) + (if old(settingsApplied) then [] else old(SettingsReplay()))
      ensures paused == old(paused) && fullRays == old(fullRays) && previewEnabled == old(previewEnabled)
      ensures previewType == old(previewType) && previewWindowVariant == old(previewWindowVariant)
      ensures previewWindowOrderOffset == old(previewWindowOrderOffset)
    {
      if paused {
        return;
      }
      if !newModel {
        return;
      }
      if !settingsApplied {
        ApplySettings();
        settingsApplied := true;
      }

      ShowFrame(quadsData, count);
    }
  }

  /**
   * A component started with the default settings that receives two frames:
   * the settings are replayed on the first frame only, so exactly these five
   * commands are sent.
   */
  method TwoFramesSendSettingsOnce(quadsData: seq<int>, count: nat) returns (sent: seq<string>)
    requires 20 * count <= |quadsData| && SubMeshCount(count) <= MaxSphereSubObjects
    ensures sent == ["Full rays: false", "Preview window variant: 2", "Preview type: 5",
                     "Preview window variant: 2", "Preview window order offset: 0"]
  {
    var sphere := new VSphere();
    sphere.Update(true, quadsData, count);
    sphere.Update(true, quadsData, count);
    sent := sphere.sentCommands;
    assert IntToString(0) == "0" && IntToString(2) == "2" && IntToString(5) == "5";
    assert Text(PreviewType(5)) == "Preview type: 5";
    assert Text(PreviewWindowVariant(2)) == "Preview window variant: 2";
    assert Text(PreviewWindowOrderOffset(0)) == "Preview window order offset: 0";
  }
}
