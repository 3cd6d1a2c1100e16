/** The control panel (web_vite/src/viewer/controls.js): each input the
    panel reacts to is a command, a command is handled only when the
    elements its handler needs were found at registration, and handling it
    runs the matching viewer command. */
module ViewerControls {
  import opened Common
  import opened SceneGraph
  import opened ViewerState
  import opened Ui
  import opened Actions
  import Text

  /** The events the panel listens for, with the value each carries. */
  datatype Command =
    | ShadingClick
    | NormalsClick
    | WireframeChange(checked: bool)
    | GridChange(checked: bool)
    | LightsChange(checked: bool)
    | LightingInput(value: real)      // the lighting slider's parsed value
    | ResetCameraClick
    | TopViewClick
    | FrontViewClick
    | SideViewClick
    | PlayClick
    | PauseClick
    | StopClick
    | AnimationInput(time: real)      // the animation slider's parsed value
    | PanelToggleClick

  /** The DOM references a command's handler is registered under. */
  function Elements(c: Command): seq<string> {
    match c
    case ShadingClick => ["shadingToggle"]
    case NormalsClick => ["normalsToggle"]
    case WireframeChange(_) => ["wireframeToggle"]
    case GridChange(_) => ["gridToggle"]
    case LightsChange(_) => ["lightsToggle"]
    case LightingInput(_) => ["lightingSlider", "lightingValue"]
    case ResetCameraClick => ["resetCamera"]
    case TopViewClick => ["topView"]
    case FrontViewClick => ["frontView"]
    case SideViewClick => ["sideView"]
    case PlayClick => ["playButton"]
    case PauseClick => ["pauseButton"]
    case StopClick => ["stopButton"]
    case AnimationInput(_) => ["animationSlider"]
    case PanelToggleClick => ["toggleControls", "controlsPanel"]
  }

  /** A handler exists for `c`: every element it needs was found. */
  predicate Registered(dom: DomRefs, c: Command) {
    forall i :: 0 <= i < |Elements(c)| ==> HasRef(dom, Elements(c)[i])
  }

  /** The shading toggle's next mode: 'flat' after 'smooth' (a missing or
      empty mode counts as 'smooth'), 'smooth' after anything else. */
  function NextShadingMode(mode: Option<string>): string {
    var current := if mode.Some? && mode.value != "" then mode.value else "smooth";
    if current == "smooth" then "flat" else "smooth"
  }

  /** What a normals click asks for: the opposite of the status shown (a
      missing status element counts as not ON). */
  function NormalsRequest(dom: DomRefs, v: PageView): bool {
    !(HasRef(dom, "normalsStatus") && v.normalsStatus == "ON")
  }

  /** The three view presets. */
  function PresetPosition(c: Command): Vec3
    requires c.TopViewClick? || c.FrontViewClick? || c.SideViewClick?
  {
    match c
    case TopViewClick => Vec3(0.0, 10.0, 0.0)
    case FrontViewClick => Vec3(0.0, 0.0, 10.0)
    case SideViewClick => Vec3(10.0, 0.0, 0.0)
  }

  /** The record after handling `c` (`v` is the page before it; `fr` what
      the rendering engine reports for framing the scene). */
  function CommandRecord(r: StateRecord, v: PageView, c: Command, fr: Framing): StateRecord
    requires fr.tanHalfFov > 0.0
  {
    match c
    case ShadingClick => ShadingRecord(r, NextShadingMode(v.shadingMode))
    case NormalsClick => NormalsRecord(r, NormalsRequest(r.dom, v))
    case WireframeChange(b) => WireframeRecord(r, b)
    case GridChange(b) => GridRecord(r, b)
    case LightsChange(b) => LightsRecord(r, b)
    case LightingInput(x) => IntensityRecord(r, x)
    case ResetCameraClick => ResetRecord(r, fr)
    case TopViewClick => PresetRecord(r, PresetPosition(c))
    case FrontViewClick => PresetRecord(r, PresetPosition(c))
    case SideViewClick => PresetRecord(r, PresetPosition(c))
    case PlayClick => PlayRecord(r)
    case PauseClick => PauseRecord(r)
    case StopClick => StopRecord(r)
    case AnimationInput(t) => SeekRecord(r, t)
    case PanelToggleClick => r
  }

  /** The page after handling `c`. */
  function CommandPage(v: PageView, r: StateRecord, c: Command): PageView {
    match c
    case ShadingClick =>
      var mode := NextShadingMode(v.shadingMode);
      ShadingPage(v.(shadingMode := Some(mode)), r, mode)
    case NormalsClick => NormalsPage(v, r, NormalsRequest(r.dom, v))
    case LightingInput(x) => IntensityPage(v.(lightingValue := Text.Fixed1(x)), r, x)
    case StopClick => StopPage(v, r)
    case AnimationInput(t) => SeekPage(v, r, t)
    case PanelToggleClick => v.(panelOpen := !v.panelOpen)
    case _ => v
  }

  /** The display toggles and the lighting slider. */
  predicate IsDisplayCommand(c: Command) {
    c.ShadingClick? || c.NormalsClick? || c.WireframeChange? || c.GridChange? || c.LightsChange? || c.LightingInput?
  }

  /** The camera buttons. */
  predicate IsCameraCommand(c: Command) {
    c.ResetCameraClick? || c.TopViewClick? || c.FrontViewClick? || c.SideViewClick?
  }

  /** One event reaching its registered handler. */
  method Handle(st: State, page: Page, c: Command, fr: Framing)
    requires Registered(st.dom, c)
    requires fr.tanHalfFov > 0.0
    modifies st, page
    ensures st.Record() == CommandRecord(old(st.Record()), old(page.View()), c, fr)
    ensures page.View() == CommandPage(old(page.View()), old(st.Record()), c)
  {
    if IsDisplayCommand(c) {
      HandleDisplay(st, page, c, fr);
    } else if IsCameraCommand(c) {
      HandleCamera(st, page, c, fr);
    } else {
      HandlePlayback(st, page, c, fr);
    }
  }

  method HandleDisplay(st: State, page: Page, c: Command, fr: Framing)
    requires IsDisplayCommand(c) && fr.tanHalfFov > 0.0
    modifies st, page
    ensures st.Record() == CommandRecord(old(st.Record()), old(page.View()), c, fr)
    ensures page.View() == CommandPage(old(page.View()), old(st.Record()), c)
  {
    match c
    case ShadingClick =>
      var nextMode := NextShadingMode(page.shadingMode);
      page.shadingMode := Some(nextMode);
      ApplyShadingMode(st, page, nextMode);
    case NormalsClick =>
      var isOn := HasRef(st.GetDomRefs(), "normalsStatus") && page.normalsStatus == "ON";
      ToggleNormals(st, page, !isOn);
    case WireframeChange(b) => ToggleWireframe(st, b);
    case GridChange(b) => ToggleGrid(st, b);
    case LightsChange(b) => ToggleLights(st, b);
    case LightingInput(x) =>
      page.lightingValue := Text.Fixed1(x);
      UpdateLightingIntensity(st, page, x);
  }

  method HandleCamera(st: State, page: Page, c: Command, fr: Framing)
    requires IsCameraCommand(c) && fr.tanHalfFov > 0.0
    modifies st, page
    ensures st.Record() == CommandRecord(old(st.Record()), old(page.View()), c, fr)
    ensures page.View() == CommandPage(old(page.View()), old(st.Record()), c)
  {
    match c
    case ResetCameraClick => ResetCameraToScene(st, fr);
    case TopViewClick => SetCameraPreset(st, Vec3(0.0, 10.0, 0.0));
    case FrontViewClick => SetCameraPreset(st, Vec3(0.0, 0.0, 10.0));
    case SideViewClick => SetCameraPreset(st, Vec3(10.0, 0.0, 0.0));
  }

  method HandlePlayback(st: State, page: Page, c: Command, fr: Framing)
    requires !IsDisplayCommand(c) && !IsCameraCommand(c) && fr.tanHalfFov > 0.0
    modifies st, page
    ensures st.Record() == CommandRecord(old(st.Record()), old(page.View()), c, fr)
    ensures page.View() == CommandPage(old(page.View()), old(st.Record()), c)
  {
    match c
    case PlayClick => PlayAnimations(st);
    case PauseClick => PauseAnimations(st);
    case StopClick => StopAnimations(st, page);
    case AnimationInput(t) => SeekAnimation(st, page, t);
    case PanelToggleClick =>
      var willOpen := !page.panelOpen;
      page.panelOpen := willOpen;
  }

  /** The animation controls' display as `registerControlHandlers` leaves it. */
  function RegisteredDisplay(display: string, dom: DomRefs, hasAnimations: bool): string {
    if HasRef(dom, "animationControls") then (if hasAnimations then "" else "none") else display
  }

  /** `registerControlHandlers`: the handlers are attached (each command is
      then served by `Handle` when `Registered`), and the animation controls
      are shown exactly when the scene has animations. */
  method RegisterControlHandlers(dom: DomRefs, page: Page, hasAnimations: bool)
    modifies page
    ensures page.View() == old(page.View()).(controlsDisplay := RegisteredDisplay(old(page.controlsDisplay), dom, hasAnimations))
  {
    if hasAnimations && HasRef(dom, "animationControls") {
      page.controlsDisplay := "";
    } else if HasRef(dom, "animationControls") {
      page.controlsDisplay := "none";
    }
  }

  // ---------------------------------------------------------------------
  // Properties

  /** The shading toggle alternates: it always yields 'flat' or 'smooth', and
      two clicks bring back the mode of the first. */
  lemma ShadingCycle(mode: Option<string>)
    ensures NextShadingMode(mode) == "flat" || NextShadingMode(mode) == "smooth"
    ensures NextShadingMode(Some(NextShadingMode(mode))) != NextShadingMode(mode)
    ensures NextShadingMode(Some(NextShadingMode(Some(NextShadingMode(mode))))) == NextShadingMode(mode)
    ensures (mode.None? || mode == Some("") || mode == Some("smooth")) <==> NextShadingMode(mode) == "flat"
  {
  }

  /** A normals click flips what the status shows: ON becomes OFF, and OFF
      becomes ON whenever the scene has a mesh with a geometry to draw. */
  lemma NormalsClickFlips(r: StateRecord, v: PageView)
    requires r.scene.Some? && HasRef(r.dom, "normalsStatus") && HelperConsistent(r)
    ensures v.normalsStatus == "ON" ==> CommandPage(v, r, NormalsClick).normalsStatus == "OFF"
    ensures v.normalsStatus != "ON" && FirstMeshWithGeometry(WithoutHelper(r)).Some? ==>
      CommandPage(v, r, NormalsClick).normalsStatus == "ON"
  {
  }

  /** No input breaks the normals overlay bookkeeping: after every command
      the scene holds at most one overlay, there exactly when the state
      refers to it. */
  lemma CommandKeepsHelperConsistent(r: StateRecord, v: PageView, c: Command, fr: Framing)
    requires fr.tanHalfFov > 0.0 && HelperConsistent(r)
    ensures HelperConsistent(CommandRecord(r, v, c, fr))
  {
    if r.scene.Some? {
      var s := r.scene.value;
      match c
      case ShadingClick =>
        var mode := NextShadingMode(v.shadingMode);
        TogglesKeepHelpers(s, mode, false, false, 0.0);
        ReplaceSceneKeepsConsistent(r, ShadeAll(s, mode));
      case WireframeChange(b) =>
        TogglesKeepHelpers(s, "", b, false, 0.0);
        ReplaceSceneKeepsConsistent(r, WireframeAll(s, b));
      case LightsChange(b) =>
        TogglesKeepHelpers(s, "", false, b, 0.0);
        ReplaceSceneKeepsConsistent(r, LightVisibilityAll(s, b));
      case LightingInput(x) =>
        TogglesKeepHelpers(s, "", false, false, x);
        ReplaceSceneKeepsConsistent(r, ScaleAll(s, x));
      case NormalsClick =>
        NormalsKeepConsistent(r, NormalsRequest(r.dom, v));
      case _ =>
    } else if c.NormalsClick? {
      NormalsKeepConsistent(r, NormalsRequest(r.dom, v));
    }
  }

  /** Each preset puts the camera on one axis, ten units out, and retargets
      the controls (or the camera's aim) to the origin. */
  lemma PresetsAimAtOrigin(r: StateRecord, v: PageView, c: Command, fr: Framing)
    requires c.TopViewClick? || c.FrontViewClick? || c.SideViewClick?
    requires fr.tanHalfFov > 0.0 && r.camera.Some?
    ensures var s := CommandRecord(r, v, c, fr);
      NormSq(s.camera.value.position) == 100.0 &&
      (c.TopViewClick? ==> s.camera.value.position == Vec3(0.0, 10.0, 0.0)) &&
      (c.FrontViewClick? ==> s.camera.value.position == Vec3(0.0, 0.0, 10.0)) &&
      (c.SideViewClick? ==> s.camera.value.position == Vec3(10.0, 0.0, 0.0)) &&
      (r.controls.Some? ==> s.controls.value.target == Origin) &&
      (r.controls.None? ==> s.camera.value.lookingAt == Some(Origin))
  {
  }

  /** The animation controls end up visible exactly when the scene has
      animations (given the element exists). */
  lemma RegisteredDisplayIff(display: string, dom: DomRefs, hasAnimations: bool)
    requires HasRef(dom, "animationControls")
    ensures RegisteredDisplay(display, dom, hasAnimations) == "" <==> hasAnimations
  {
  }

  /** The lighting slider shows its value to one decimal and scales every
      light by it, which can be undone by moving it back to 1. */
  lemma LightingInputWrites(r: StateRecord, v: PageView, x: real, fr: Framing)
    requires fr.tanHalfFov > 0.0 && r.scene.Some?
    ensures CommandPage(v, r, LightingInput(x)).lightingValue == Text.Fixed1(x)
    ensures CommandRecord(r, v, LightingInput(x), fr).scene == Some(ScaleAll(r.scene.value, x))
  {
  }

  /** Two panel clicks leave the panel as it was; one flips it. */
  lemma PanelToggleInvolution(r: StateRecord, v: PageView)
    ensures CommandPage(v, r, PanelToggleClick).panelOpen == !v.panelOpen
    ensures CommandPage(CommandPage(v, r, PanelToggleClick), r, PanelToggleClick) == v
  {
  }
}
