/** Bringing the viewer up (web_vite/src/viewer/scene.js): the scene with
    its grid and light rig, the per-frame step, the scene descriptor, the
    model loader's callbacks, and the order `setupViewer` runs them in. */
module SceneSetup {
  import opened Common
  import opened SceneGraph
  import opened ViewerState
  import opened Ui
  import opened Actions
  import opened Animation
  import opened ViewerControls

  // ---------------------------------------------------------------------
  // The light rig (`createLighting`)

  /** The lights added, in order: ambient 1.2, then the key (1.5), fill
      (0.8), back (0.6), left (0.4) and right (0.4) directional lights. */
  const RigLights: seq<Node> := [
    Light(Ambient, 1.2, None, true),
    Light(Directional, 1.5, None, true),
    Light(Directional, 0.8, None, true),
    Light(Directional, 0.6, None, true),
    Light(Directional, 0.4, None, true),
    Light(Directional, 0.4, None, true)]

  /** The scene after `createLighting`: the rig appended, every directional
      light's intensity recorded as its original, then the ambient light's. */
  function LitScene(scene: seq<Node>): seq<Node> {
    var captured := CaptureDirectionalAll(scene + RigLights);
    var a := |scene|;
    captured[a := captured[a].(originalIntensity := Some(captured[a].intensity))]
  }

  method CreateLighting(scene: seq<Node>) returns (lit: seq<Node>)
    ensures lit == LitScene(scene)
  {
    var ambient := |scene|;
    lit := scene + [Light(Ambient, 1.2, None, true)];
    lit := lit + [Light(Directional, 1.5, None, true)];
    lit := lit + [Light(Directional, 0.8, None, true)];
    lit := lit + [Light(Directional, 0.6, None, true)];
    lit := lit + [Light(Directional, 0.4, None, true)];
    lit := lit + [Light(Directional, 0.4, None, true)];
    ghost var added := lit;
    assert added == scene + RigLights;
    var i := 0;
    while i < |lit|
      invariant 0 <= i <= |lit| == |added|
      invariant forall j :: 0 <= j < i ==> lit[j] == CaptureDirectionalNode(added[j])
      invariant forall j :: i <= j < |lit| ==> lit[j] == added[j]
    {
      if lit[i].Light? && lit[i].kind == Directional {
        lit := lit[i := lit[i].(originalIntensity := Some(lit[i].intensity))];
      }
      i := i + 1;
    }
    assert lit == CaptureDirectionalAll(added);
    lit := lit[ambient := lit[ambient].(originalIntensity := Some(lit[ambient].intensity))];
  }

  /** Every light of the rig stores its own intensity as the original, and
      the scene before it keeps its order, with only its directional lights
      gaining a recorded original. */
  lemma {:induction false} RigOriginals(scene: seq<Node>)
    ensures var lit := LitScene(scene);
      |lit| == |scene| + 6 &&
      (forall j :: 0 <= j < |scene| ==> lit[j] == CaptureDirectionalNode(scene[j])) &&
      (forall j :: |scene| <= j < |lit| ==>
        lit[j] == RigLights[j - |scene|].(originalIntensity := Some(RigLights[j - |scene|].intensity)))
  {
    var lit := LitScene(scene);
    var all := scene + RigLights;
    assert forall j :: |scene| <= j < |all| ==> all[j] == RigLights[j - |scene|];
  }

  /** The scene root and the grid, as `initScene` builds them before the lights. */
  const BareScene: seq<Node> := [Group, Grid]

  /** The initial rig: one ambient light of 1.2 and five directional lights
      of 1.5, 0.8, 0.6, 0.4 and 0.4, each remembering its intensity. */
  lemma InitialRig()
    ensures LitScene(BareScene) == [Group, Grid,
      Light(Ambient, 1.2, Some(1.2), true),
      Light(Directional, 1.5, Some(1.5), true),
      Light(Directional, 0.8, Some(0.8), true),
      Light(Directional, 0.6, Some(0.6), true),
      Light(Directional, 0.4, Some(0.4), true),
      Light(Directional, 0.4, Some(0.4), true)]
  {
    RigOriginals(BareScene);
  }

  // ---------------------------------------------------------------------
  // The per-frame step (`animate`)

  /** The frame time: the clock's delta, or 0 without a clock. */
  function FrameDelta(r: StateRecord, clockDelta: real): real {
    if r.clock.Some? then clockDelta else 0.0
  }

  function ControlsUpdated(r: StateRecord): StateRecord {
    if r.controls.Some? then r.(controls := Some(r.controls.value.(updates := r.controls.value.updates + 1))) else r
  }

  /** One frame: controls updated, animations ticked, then the scene drawn
      (recording the mixer as drawn) when scene, camera and renderer exist. */
  function FrameRecord(r: StateRecord, clockDelta: real): StateRecord {
    var ticked := TickRecord(ControlsUpdated(r), FrameDelta(r, clockDelta));
    if ticked.scene.Some? && ticked.camera.Some? && ticked.renderer.Some? then
      ticked.(renderer := Some(Renderer(ticked.renderer.value.frames + 1, ticked.mixer)))
    else ticked
  }

  function FramePage(v: PageView, r: StateRecord, clockDelta: real): PageView {
    TickPage(v, ControlsUpdated(r), FrameDelta(r, clockDelta))
  }

  method AnimateFrame(st: State, page: Page, clockDelta: real)
    modifies st, page
    ensures st.Record() == FrameRecord(old(st.Record()), clockDelta)
    ensures page.View() == FramePage(old(page.View()), old(st.Record()), clockDelta)
  {
    var controls := st.GetControls();
    if controls.Some? {
      st.SetControls(Some(controls.value.(updates := controls.value.updates + 1)));
    }
    var clock := st.GetClock();
    var delta := if clock.Some? then clockDelta else 0.0;
    Tick(st, page, delta);
    var scene := st.GetScene();
    var camera := st.GetCamera();
    var renderer := st.GetRenderer();
    if scene.Some? && camera.Some? && renderer.Some? {
      st.SetRenderer(Some(Renderer(renderer.value.frames + 1, st.GetMixer())));
    }
  }

  /** The order inside a frame: the controls are updated when present; with
      no clock nothing advances; a drawn frame shows the clock after the
      tick; and a frame is drawn exactly when scene, camera and renderer exist. */
  lemma FrameOrder(r: StateRecord, dt: real)
    ensures var s := FrameRecord(r, dt);
      (r.controls.Some? ==> s.controls == Some(r.controls.value.(updates := r.controls.value.updates + 1))) &&
      (r.controls.None? ==> s.controls.None?) &&
      (r.clock.None? ==> s.mixer == r.mixer) &&
      (r.clock.Some? && TickActive(r) ==> s.mixer == Some(Mixer(r.mixer.value.time + dt))) &&
      (r.scene.Some? && r.camera.Some? && r.renderer.Some? ==>
        s.renderer == Some(Renderer(r.renderer.value.frames + 1, s.mixer))) &&
      (!(r.scene.Some? && r.camera.Some? && r.renderer.Some?) ==> s.renderer == r.renderer) &&
      s.isPlaying == r.isPlaying && s.animationActions == r.animationActions
  {
  }

  // ---------------------------------------------------------------------
  // Bringing up the scene (`initScene`)

  /** The camera `createCamera` makes: 45 degrees of view, at (5, 5, 5). */
  const StartCamera: Camera := Camera(Vec3(5.0, 5.0, 5.0), 45.0, None)

  /** The record once `initScene` has stored what it built; `controlsMade`
      says whether creating the orbit controls succeeded. */
  function BuiltRecord(r: StateRecord, controlsMade: bool, clock: Handle): StateRecord {
    r.(scene := Some(LitScene(BareScene)), camera := Some(StartCamera), renderer := Some(Renderer(0, None)),
       controls := if controlsMade then Some(OrbitControls(Origin, 0)) else None,
       grid := Some(GridHelper(true)), clock := Some(clock))
  }

  const NoViewerError: string := "Viewer container not found"

  /** `initScene`: without the viewer element it fails and builds nothing;
      otherwise it stores the scene, camera, renderer, controls, grid and
      clock, and draws the first frame. */
  method InitScene(st: State, page: Page, controlsMade: bool, clock: Handle, firstDelta: real) returns (err: Option<string>)
    modifies st, page
    ensures !HasRef(old(st.dom), "viewer") ==>
      err == Some(NoViewerError) && st.Record() == old(st.Record()) && page.View() == old(page.View())
    ensures HasRef(old(st.dom), "viewer") ==> err.None?
    ensures HasRef(old(st.dom), "viewer") ==>
      st.Record() == FrameRecord(BuiltRecord(old(st.Record()), controlsMade, clock), firstDelta)
    ensures HasRef(old(st.dom), "viewer") ==>
      page.View() == FramePage(old(page.View()), BuiltRecord(old(st.Record()), controlsMade, clock), firstDelta)
  {
    if !HasRef(st.GetDomRefs(), "viewer") {
      return Some(NoViewerError);
    }
    var scene := [Group];
    var controls: Option<OrbitControls> := if controlsMade then Some(OrbitControls(Origin, 0)) else None;
    var grid := GridHelper(true);
    scene := scene + [Grid];
    assert scene == BareScene;
    scene := CreateLighting(scene);
    st.SetScene(Some(scene));
    st.SetCamera(Some(StartCamera));
    st.SetRenderer(Some(Renderer(0, None)));
    st.SetControls(controls);
    st.SetGrid(Some(grid));
    st.SetClock(Some(clock));
    assert st.Record() == BuiltRecord(old(st.Record()), controlsMade, clock);
    AnimateFrame(st, page, firstDelta);
    err := None;
  }

  // ---------------------------------------------------------------------
  // The scene descriptor (`loadSceneInfo`)

  /** The animation controls' display after the descriptor: hidden by a
      descriptor without animations, shown when the fetch failed. */
  function DescriptorDisplay(display: string, dom: DomRefs, fetched: Option<SceneInfo>): string {
    if !HasRef(dom, "animationControls") then display
    else match fetched
      case Some(info) => if info.hasAnimations then display else "none"
      case None => ""
  }

  function DescriptorPage(v: PageView, dom: DomRefs, fetched: Option<SceneInfo>): PageView {
    var both := HasRef(dom, "sceneTitle") && HasRef(dom, "sceneStats");
    v.(sceneTitle := if both then SceneTitleText(fetched) else v.sceneTitle,
       sceneStats := if both then SceneStatsText(fetched) else v.sceneStats,
       controlsDisplay := DescriptorDisplay(v.controlsDisplay, dom, fetched))
  }

  /** `loadSceneInfo`; `fetched` is the parsed descriptor, `None` when the
      request or the parse failed. The descriptor (or null) is returned. */
  method LoadSceneInfo(dom: DomRefs, page: Page, fetched: Option<SceneInfo>) returns (info: Option<SceneInfo>)
    modifies page
    ensures info == fetched
    ensures page.View() == DescriptorPage(old(page.View()), dom, fetched)
  {
    match fetched
    case Some(data) =>
      UpdateSceneInfo(dom, page, Some(data));
      if !data.hasAnimations && HasRef(dom, "animationControls") {
        page.controlsDisplay := "none";
      }
      return Some(data);
    case None =>
      UpdateSceneInfo(dom, page, None);
      if HasRef(dom, "animationControls") {
        page.controlsDisplay := "";
      }
      return None;
  }

  /** `sceneInfo?.has_animations ?? false`. */
  function HasAnimationsFlag(fetched: Option<SceneInfo>): bool {
    fetched.Some? && fetched.value.hasAnimations
  }

  // ---------------------------------------------------------------------
  // The model loader (`loadModel`)

  /** Before the download: the overlay shown with 'Loading...'. */
  method LoadModelStart(dom: DomRefs, page: Page)
    modifies page
    ensures page.View() == old(page.View()).(
      loadingOverlay := if HasRef(dom, "loadingOverlay") then "flex" else old(page.loadingOverlay),
      loadingText := if HasRef(dom, "loadingText") then LoadingText(Start) else old(page.loadingText))
  {
    ShowLoadingOverlay(dom, page);
    SetLoadingProgress(dom, page, Start);
  }

  /** The percentage shown for `loaded` of `total` bytes. */
  function ProgressPercent(loaded: real, total: real): int
    requires total != 0.0
  {
    (loaded / total * 100.0).Floor
  }

  /** The progress callback: only a known (non-zero) total updates the text. */
  method OnProgress(dom: DomRefs, page: Page, loaded: real, total: real)
    modifies page
    ensures page.View() == if total != 0.0 && HasRef(dom, "loadingText")
      then old(page.View()).(loadingText := LoadingText(Percent(ProgressPercent(loaded, total))))
      else old(page.View())
  {
    if total != 0.0 {
      var percent := (loaded / total * 100.0).Floor;
      SetLoadingProgress(dom, page, Percent(percent));
    }
  }

  /** Part of a download reads as a whole percentage from 0 to 99; the whole
      of it reads as 100, which the text shows as processing. */
  lemma ProgressPercentRange(loaded: real, total: real)
    requires 0.0 <= loaded <= total && total > 0.0
    ensures 0 <= ProgressPercent(loaded, total) <= 100
    ensures loaded < total ==> ProgressPercent(loaded, total) < 100
    ensures loaded == total ==> LoadingText(Percent(ProgressPercent(loaded, total))) == "Processing..."
  {
    var q := loaded / total;
    assert q * total == loaded;
    var p := q * 100.0;
    if loaded == 0.0 {
      assert q == 0.0;
    } else {
      var m := total * q;
      assert m == loaded;
      PositiveFactor(total, q);
    }
    if loaded < total {
      var y := 1.0 - q;
      var m := total * y;
      assert m == total - loaded;
      assert m > 0.0;
      PositiveFactor(total, y);
      assert p < 100.0;
    } else {
      assert q == 1.0;
    }
  }

  const LoadErrorMessage: string := "Error loading 3D model. Check console for details."

  /** The error callback: the overlay hidden and the error shown in the viewer. */
  method OnError(dom: DomRefs, page: Page)
    modifies page
    ensures page.View() == old(page.View()).(
      loadingOverlay := if HasRef(dom, "loadingOverlay") then "none" else old(page.loadingOverlay),
      errorMessages := if HasRef(dom, "viewer") then old(page.errorMessages) + [LoadErrorMessage] else old(page.errorMessages))
  {
    HideLoadingOverlay(dom, page);
    ShowErrorMessage(dom, page, LoadErrorMessage);
  }

  /** The loader's traversal: every mesh of the model casts and receives shadows. */
  method CastShadows(model: seq<Node>) returns (shadowed: seq<Node>)
    ensures shadowed == ShadowAll(model)
  {
    shadowed := model;
    var i := 0;
    while i < |shadowed|
      invariant 0 <= i <= |shadowed| == |model|
      invariant forall j :: 0 <= j < i ==> shadowed[j] == ShadowNode(model[j])
      invariant forall j :: i <= j < |shadowed| ==> shadowed[j] == model[j]
    {
      if shadowed[i].Mesh? {
        shadowed := shadowed[i := shadowed[i].(castShadow := true, receiveShadow := true)];
      }
      i := i + 1;
    }
  }

  /** `centerCameraOnModel`: the model's bounding box is framed. */
  method CenterCameraOnModel(st: State, fr: Framing)
    requires fr.tanHalfFov > 0.0
    modifies st
    ensures st.Record() == FrameOnBox(old(st.Record()), fr)
  {
    var camera := st.GetCamera();
    var controls := st.GetControls();
    if camera.None? {
      return;
    }
    var center := fr.box.center;
    var maxDim := Max(fr.box.size.x, Max(fr.box.size.y, fr.box.size.z));
    var distance := maxDim / (2.0 * fr.tanHalfFov);
    distance := Max(distance, 1.0);
    if controls.Some? {
      var direction := ViewDirection(camera.value, controls.value, fr);
      st.SetCamera(Some(camera.value.(position := Plus(center, Times(direction, distance * 1.5)))));
      st.SetControls(Some(controls.value.(target := center, updates := controls.value.updates + 1)));
    } else {
      st.SetCamera(Some(camera.value.(position := Vec3(center.x, center.y + distance, center.z + distance))));
      st.SetCamera(Some(st.camera.value.(lookingAt := Some(center))));
    }
  }

  /** The record once the model is in the scene and framed. */
  function AddedRecord(r: StateRecord, model: seq<Node>, root: Handle, fr: Framing): StateRecord
    requires fr.tanHalfFov > 0.0 && r.scene.Some?
  {
    FrameOnBox(r.(scene := Some(r.scene.value + ShadowAll(model)), modelRoot := Some(root)), fr)
  }

  /** The clips branch of the success callback on the record. */
  function ClipsRecord(r: StateRecord, clips: seq<Clip>): StateRecord {
    if |clips| > 0 then InitRecord(r, clips, clips[0].duration, Mixer(0.0)) else r.(isPlaying := false)
  }

  /** The page with clips: the slider and time display set up for the
      first clip's length, and the controls shown. */
  function WithClipsPage(v: PageView, dom: DomRefs, clips: seq<Clip>): PageView
    requires |clips| > 0
  {
    InitPage(v, dom, clips, clips[0].duration).(
      controlsDisplay := if HasRef(dom, "animationControls") then "" else v.controlsDisplay)
  }

  /** The page without clips: time 0 of 0, the slider emptied and the controls hidden. */
  function NoClipsPage(v: PageView, dom: DomRefs): PageView {
    v.(animationTime := if HasRef(dom, "animationTime") then TimeDisplay(0.0, 0.0) else v.animationTime,
       controlsDisplay := if HasRef(dom, "animationControls") then "none" else v.controlsDisplay,
       sliderMax := if HasRef(dom, "animationSlider") then 0.0 else v.sliderMax,
       sliderValue := if HasRef(dom, "animationSlider") then 0.0 else v.sliderValue)
  }

  /** The clips branch of the success callback on the page, and the overlay hidden. */
  function ClipsPage(v: PageView, dom: DomRefs, clips: seq<Clip>): PageView {
    var v3 := if |clips| > 0 then WithClipsPage(v, dom, clips) else NoClipsPage(v, dom);
    v3.(loadingOverlay := if HasRef(dom, "loadingOverlay") then "none" else v3.loadingOverlay)
  }

  /** The record after the success callback for a model with the given
      nodes (root first) and clips; `fr` frames the model's box. */
  function LoadedRecord(r: StateRecord, model: seq<Node>, clips: seq<Clip>, root: Handle, fr: Framing): StateRecord
    requires fr.tanHalfFov > 0.0
  {
    if r.scene.None? then r else ClipsRecord(AddedRecord(r, model, root, fr), clips)
  }

  /** The page after the success callback. */
  function LoadedPage(v: PageView, r: StateRecord, model: seq<Node>, clips: seq<Clip>): PageView {
    var v1 := v.(loadingText := if HasRef(r.dom, "loadingText") then LoadingText(Percent(100)) else v.loadingText);
    if r.scene.None? then v1 else ClipsPage(ModelInfoView(v1, r.dom, ShadowAll(model)), r.dom, clips)
  }

  /** The model added to the scene, its statistics shown and the camera framed on it. */
  method AddModel(st: State, page: Page, model: seq<Node>, root: Handle, fr: Framing)
    requires fr.tanHalfFov > 0.0 && st.scene.Some?
    modifies st, page
    ensures st.Record() == AddedRecord(old(st.Record()), model, root, fr)
    ensures page.View() == ModelInfoView(old(page.View()), old(st.dom), ShadowAll(model))
  {
    var shadowed := CastShadows(model);
    st.SetScene(Some(st.scene.value + shadowed));
    st.SetModelRoot(Some(root));
    UpdateModelInfo(st.GetDomRefs(), page, Some(shadowed));
    CenterCameraOnModel(st, fr);
  }

  method WithClips(st: State, page: Page, clips: seq<Clip>)
    requires |clips| > 0
    modifies st, page
    ensures st.Record() == InitRecord(old(st.Record()), clips, clips[0].duration, Mixer(0.0))
    ensures page.View() == WithClipsPage(old(page.View()), old(st.dom), clips)
  {
    var dom := st.GetDomRefs();
    InitializeAnimations(st, page, clips, clips[0].duration, Mixer(0.0));
    ShowAnimationControls(dom, page, "");
  }

  method NoClips(st: State, page: Page)
    modifies st, page
    ensures st.Record() == old(st.Record()).(isPlaying := false)
    ensures page.View() == NoClipsPage(old(page.View()), old(st.dom))
  {
    var dom := st.GetDomRefs();
    st.SetIsPlaying(false);
    UpdateAnimationTimeDisplay(dom, page, 0.0, 0.0);
    ShowAnimationControls(dom, page, "none");
    EmptyAnimationSlider(dom, page);
  }

  /** The clips branch: with clips, playback of the first clip's length and
      the controls shown; without, not playing, time 0 of 0, the slider
      emptied and the controls hidden. Then the overlay is hidden. */
  method ApplyClips(st: State, page: Page, clips: seq<Clip>)
    modifies st, page
    ensures st.Record() == ClipsRecord(old(st.Record()), clips)
    ensures page.View() == ClipsPage(old(page.View()), old(st.dom), clips)
  {
    var dom := st.GetDomRefs();
    if |clips| > 0 {
      WithClips(st, page, clips);
    } else {
      NoClips(st, page);
    }
    HideLoadingOverlay(dom, page);
  }

  const NoSceneError: string := "Scene not initialized"

  /** The success callback; `err` is the rejection when there is no scene. */
  method OnLoad(st: State, page: Page, model: seq<Node>, clips: seq<Clip>, root: Handle, fr: Framing) returns (err: Option<string>)
    requires fr.tanHalfFov > 0.0
    modifies st, page
    ensures err == if old(st.scene).None? then Some(NoSceneError) else None
    ensures st.Record() == LoadedRecord(old(st.Record()), model, clips, root, fr)
    ensures page.View() == LoadedPage(old(page.View()), old(st.Record()), model, clips)
  {
    ghost var r0 := st.Record();
    SetLoadingProgress(st.GetDomRefs(), page, Percent(100));
    var scene := st.GetScene();
    if scene.None? {
      return Some(NoSceneError);
    }
    AddModel(st, page, model, root, fr);
    ghost var r1 := st.Record();
    assert r1 == AddedRecord(r0, model, root, fr);
    assert r1.dom == r0.dom;
    ApplyClips(st, page, clips);
    err := None;
  }

  /** A model without clips leaves the viewer not playing with its actions
      as they were, shows time 0 of 0, empties the slider and hides the
      animation controls. */
  lemma LoadWithoutClips(r: StateRecord, v: PageView, model: seq<Node>, root: Handle, fr: Framing)
    requires fr.tanHalfFov > 0.0 && r.scene.Some?
    ensures var s := LoadedRecord(r, model, [], root, fr);
      var w := LoadedPage(v, r, model, []);
      !s.isPlaying && s.animationActions == r.animationActions && s.mixer == r.mixer &&
      (HasRef(r.dom, "animationTime") ==> w.animationTime == "0:00 / 0:00") &&
      (HasRef(r.dom, "animationSlider") ==> w.sliderMax == 0.0 && w.sliderValue == 0.0) &&
      (HasRef(r.dom, "animationControls") ==> w.controlsDisplay == "none") &&
      (HasRef(r.dom, "loadingOverlay") ==> w.loadingOverlay == "none")
  {
    TimeDisplayCases(0.0, 0.0);
    FormatTimeFields(0.0);
    assert Text.NatToString(0) == "0";
  }

  /** A model with clips plays them for the first clip's length from a
      fresh mixer, and shows the animation controls. */
  lemma LoadWithClips(r: StateRecord, v: PageView, model: seq<Node>, clips: seq<Clip>, root: Handle, fr: Framing)
    requires fr.tanHalfFov > 0.0 && r.scene.Some? && |clips| > 0
    ensures var s := LoadedRecord(r, model, clips, root, fr);
      var w := LoadedPage(v, r, model, clips);
      s.isPlaying && s.animationDuration == clips[0].duration && s.mixer == Some(Mixer(0.0)) &&
      |s.animationActions| == |clips| && s.animationActions[0].running &&
      (HasRef(r.dom, "animationSlider") ==> w.sliderMax == clips[0].duration) &&
      (HasRef(r.dom, "animationControls") ==> w.controlsDisplay == "")
  {
  }

  /** The model is added after what the scene held, in its own order, and
      every one of its meshes casts and receives shadows. */
  lemma LoadedMeshesCastShadows(r: StateRecord, model: seq<Node>, clips: seq<Clip>, root: Handle, fr: Framing)
    requires fr.tanHalfFov > 0.0 && r.scene.Some?
    ensures var nodes := LoadedRecord(r, model, clips, root, fr).scene.value;
      var n := |r.scene.value|;
      |nodes| == n + |model| && nodes[..n] == r.scene.value &&
      forall j :: 0 <= j < |model| ==>
        (nodes[n + j].Mesh? <==> model[j].Mesh?) &&
        (nodes[n + j].Mesh? ==> nodes[n + j].castShadow && nodes[n + j].receiveShadow)
  {
    var nodes := LoadedRecord(r, model, clips, root, fr).scene.value;
    assert nodes == r.scene.value + ShadowAll(model);
  }

  /** The overlay bookkeeping starts consistent: the initial state has no
      scene and no overlay, and `initScene` builds a scene without one. */
  lemma InitialHelperConsistent(controlsMade: bool, clock: Handle)
    ensures HelperConsistent(Initial())
    ensures HelperConsistent(BuiltRecord(Initial(), controlsMade, clock))
  {
    InitialRig();
    HelperCountZero(LitScene(BareScene));
  }

  /** Loading a model (which brings no overlay of its own) keeps the overlay
      bookkeeping consistent. */
  lemma LoadedHelperConsistent(r: StateRecord, model: seq<Node>, clips: seq<Clip>, root: Handle, fr: Framing)
    requires fr.tanHalfFov > 0.0 && HelperConsistent(r) && HelperCount(model) == 0
    ensures HelperConsistent(LoadedRecord(r, model, clips, root, fr))
  {
    if r.scene.Some? {
      var s := r.scene.value;
      TogglesKeepHelpers(model, "", false, false, 0.0);
      KeepsHelpersCount(model, ShadowAll(model));
      HelperCountAppend(s, ShadowAll(model));
      var a := AddedRecord(r, model, root, fr);
      assert a.scene == Some(s + ShadowAll(model)) && a.normalsHelper == r.normalsHelper;
      var l := ClipsRecord(a, clips);
      assert l.scene == a.scene && l.normalsHelper == a.normalsHelper;
    }
  }

  // ---------------------------------------------------------------------
  // Start-up order (`setupViewer`)

  /** How loading the model ended: the success callback with the model's
      nodes, clips, root and framing, or the error callback. */
  datatype LoadOutcome = Loaded(model: seq<Node>, clips: seq<Clip>, root: Handle, fr: Framing) | LoadFailed

  /** The animation controls' display after the load callbacks. */
  function LoadDisplay(display: string, dom: DomRefs, outcome: LoadOutcome): string {
    if !HasRef(dom, "animationControls") then display
    else match outcome
      case Loaded(_, clips, _, _) => if |clips| > 0 then "" else "none"
      case LoadFailed => display
  }

  /** The three writes to the animation controls' display, in the order
      `setupViewer` makes them: the descriptor, the handler registration
      (told `has_animations`, false without a descriptor), then the model. */
  function SetupDisplay(display: string, dom: DomRefs, fetched: Option<SceneInfo>, outcome: LoadOutcome): string {
    var afterDescriptor := DescriptorDisplay(display, dom, fetched);
    var afterRegister := RegisteredDisplay(afterDescriptor, dom, HasAnimationsFlag(fetched));
    LoadDisplay(afterRegister, dom, outcome)
  }

  /** A frame draws and ticks but leaves the scene, the references and
      the animation controls' display alone. */
  lemma FrameKeepsSetup(r: StateRecord, v: PageView, dt: real)
    ensures FrameRecord(r, dt).scene == r.scene && FrameRecord(r, dt).dom == r.dom
    ensures FramePage(v, r, dt).controlsDisplay == v.controlsDisplay
  {
  }

  /** The first half of `setupViewer`: the UI, then the scene. */
  method StartViewer(st: State, page: Page, refs: DomRefs, controlsMade: bool, clock: Handle, firstDelta: real)
    returns (err: Option<string>)
    modifies st, page
    ensures st.dom == MergeDomRefs(old(st.dom), refs)
    ensures page.controlsDisplay == old(page.controlsDisplay)
    ensures !HasRef(st.dom, "viewer") ==> err == Some(NoViewerError) && st.scene == old(st.scene)
    ensures HasRef(st.dom, "viewer") ==> err.None? && st.scene.Some?
  {
    InitializeUI(st, page, refs);
    ghost var r := st.Record();
    ghost var v := page.View();
    err := InitScene(st, page, controlsMade, clock, firstDelta);
    FrameKeepsSetup(BuiltRecord(r, controlsMade, clock), v, firstDelta);
  }

  /** The second half of `setupViewer`: the descriptor, the handlers told
      whether it announced animations, and the model. */
  method LoadContent(st: State, page: Page, fetched: Option<SceneInfo>, outcome: LoadOutcome)
    requires st.scene.Some?
    requires outcome.Loaded? ==> outcome.fr.tanHalfFov > 0.0
    modifies st, page
    ensures st.scene.Some?
    ensures page.controlsDisplay == SetupDisplay(old(page.controlsDisplay), old(st.dom), fetched, outcome)
    ensures outcome.Loaded? ==> st.isPlaying == (|outcome.clips| > 0)
  {
    var dom := st.GetDomRefs();
    ghost var d0 := page.controlsDisplay;
    var sceneInfo := LoadSceneInfo(dom, page, fetched);
    assert page.controlsDisplay == DescriptorDisplay(d0, dom, fetched);
    RegisterControlHandlers(dom, page, HasAnimationsFlag(sceneInfo));
    ghost var d2 := page.controlsDisplay;
    assert d2 == RegisteredDisplay(DescriptorDisplay(d0, dom, fetched), dom, HasAnimationsFlag(fetched));
    LoadModelStart(dom, page);
    assert page.controlsDisplay == d2;
    match outcome
    case Loaded(model, clips, root, fr) =>
      ghost var r := st.Record();
      ghost var v := page.View();
      var rejected := OnLoad(st, page, model, clips, root, fr);
      LoadedDisplayAndPlaying(v, r, model, clips, root, fr);
    case LoadFailed =>
      OnError(dom, page);
  }

  /** The success callback's effect on the animation controls' display and
      on the playing flag, for a viewer with a scene. */
  lemma LoadedDisplayAndPlaying(v: PageView, r: StateRecord, model: seq<Node>, clips: seq<Clip>, root: Handle, fr: Framing)
    requires fr.tanHalfFov > 0.0 && r.scene.Some?
    ensures LoadedPage(v, r, model, clips).controlsDisplay == LoadDisplay(v.controlsDisplay, r.dom, Loaded(model, clips, root, fr))
    ensures LoadedRecord(r, model, clips, root, fr).isPlaying == (|clips| > 0)
    ensures LoadedRecord(r, model, clips, root, fr).scene.Some?
  {
  }

  /** `setupViewer`: the UI, then the scene (which fails without the viewer
      element), the descriptor, the handlers and the model (a failed load
      is only reported). */
  method SetupViewer(st: State, page: Page, refs: DomRefs, controlsMade: bool, clock: Handle, firstDelta: real,
                     fetched: Option<SceneInfo>, outcome: LoadOutcome) returns (err: Option<string>)
    requires outcome.Loaded? ==> outcome.fr.tanHalfFov > 0.0
    modifies st, page
    ensures !HasRef(MergeDomRefs(old(st.dom), refs), "viewer") ==> err == Some(NoViewerError) && st.scene == old(st.scene)
    ensures HasRef(MergeDomRefs(old(st.dom), refs), "viewer") ==> err.None? && st.scene.Some?
    ensures HasRef(MergeDomRefs(old(st.dom), refs), "viewer") ==>
      page.controlsDisplay == SetupDisplay(old(page.controlsDisplay), MergeDomRefs(old(st.dom), refs), fetched, outcome)
    ensures HasRef(MergeDomRefs(old(st.dom), refs), "viewer") && outcome.Loaded? ==>
      st.isPlaying == (|outcome.clips| > 0)
  {
    err := StartViewer(st, page, refs, controlsMade, clock, firstDelta);
    if err.Some? {
      return;
    }
    LoadContent(st, page, fetched, outcome);
  }

  /** With the element present, the controls end up shown exactly when the
      loaded model has clips; when the model did not load, exactly when the
      descriptor announced animations. */
  lemma SetupDisplayFollowsModel(display: string, dom: DomRefs, fetched: Option<SceneInfo>, outcome: LoadOutcome)
    requires HasRef(dom, "animationControls")
    ensures outcome.Loaded? ==> (SetupDisplay(display, dom, fetched, outcome) == "" <==> |outcome.clips| > 0)
    ensures outcome.LoadFailed? ==> (SetupDisplay(display, dom, fetched, outcome) == "" <==> HasAnimationsFlag(fetched))
    ensures SetupDisplay(display, dom, fetched, outcome) == "" || SetupDisplay(display, dom, fetched, outcome) == "none"
  {
  }

  /** A failed descriptor fetch shows the controls, but the registration
      that follows hides them again; unless a model with clips loads, they
      stay hidden. */
  lemma DescriptorFailureHidesControls(display: string, dom: DomRefs, outcome: LoadOutcome)
    requires HasRef(dom, "animationControls")
    requires outcome.LoadFailed? || |outcome.clips| == 0
    ensures DescriptorDisplay(display, dom, None) == ""
    ensures SetupDisplay(display, dom, None, outcome) == "none"
  {
  }
}
