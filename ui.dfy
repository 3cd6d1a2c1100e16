/** The viewer's text displays (web_vite/src/viewer/ui.js): the strings each
    display shows, as functions, and the page elements they are written to,
    as a class whose fields are the elements' contents. Every write happens
    only when the element's DOM reference is set. */
module Ui {
  import opened Common
  import opened Text
  import opened SceneGraph
  import opened ViewerState

  // ---------------------------------------------------------------------
  // Strings

  /** `formatTime`: "m:ss" with m = floor(v / 60) and ss = floor(v % 60),
      padded to two digits. */
  function FormatTime(v: real): string {
    var minutes := (v / 60.0).Floor;
    var seconds := JsRem(v, 60.0).Floor;
    IntToString(minutes) + ":" + PadStart2(IntToString(seconds))
  }

  /** For a time that is not negative, the minutes and seconds fields are
      the whole seconds divided by 60 and their remainder. */
  lemma MinutesAndSeconds(v: real)
    requires v >= 0.0
    ensures v.Floor >= 0
    ensures (v / 60.0).Floor == v.Floor / 60
    ensures JsRem(v, 60.0).Floor == v.Floor % 60
  {
    var m := (v / 60.0).Floor;
    JsRemRange(v, 60.0);
    var r := JsRem(v, 60.0);
    assert r == v - 60.0 * m as real;
    assert m >= 0;
    assert 60 * m <= v.Floor < 60 * m + 60;
    assert v.Floor / 60 == m;
  }

  /** A seconds field below 60 pads to exactly two digits. */
  lemma TwoDigitSeconds(n: nat)
    requires n < 60
    ensures |PadStart2(NatToString(n))| == 2 && AllDigits(PadStart2(NatToString(n)))
  {
    if n >= 10 {
      assert NatToString(n) == NatToString(n / 10) + [DigitChar(n % 10)];
    }
  }

  /** For a time that is not negative, the display is whole minutes, a colon,
      and the remaining whole seconds as exactly two digits below 60. */
  lemma FormatTimeFields(v: real)
    requires v >= 0.0
    ensures v.Floor >= 0
    ensures FormatTime(v) == NatToString(v.Floor / 60) + ":" + PadStart2(NatToString(v.Floor % 60))
    ensures v.Floor % 60 < 60 && |PadStart2(NatToString(v.Floor % 60))| == 2
    ensures AllDigits(PadStart2(NatToString(v.Floor % 60)))
  {
    MinutesAndSeconds(v);
    TwoDigitSeconds(v.Floor % 60);
  }

  /** `updateAnimationTimeDisplay`'s text. */
  function TimeDisplay(time: real, duration: real): string {
    if duration <= 0.0 then "0:00 / 0:00" else FormatTime(time) + " / " + FormatTime(duration)
  }

  /** With no clip the display reads as time 0 of length 0; with a clip it
      is the two formatted times. */
  lemma TimeDisplayCases(time: real, duration: real)
    ensures duration <= 0.0 ==> TimeDisplay(time, duration) == FormatTime(0.0) + " / " + FormatTime(0.0)
    ensures duration > 0.0 ==> TimeDisplay(time, duration) == FormatTime(time) + " / " + FormatTime(duration)
  {
    if duration <= 0.0 {
      FormatTimeFields(0.0);
      assert NatToString(0) == "0";
      assert FormatTime(0.0) == "0:00";
    }
  }

  /** What `setLoadingProgress` receives: a percentage, the word 'start', or anything else. */
  datatype Progress = Percent(n: int) | Start | Other(text: string)

  /** `setLoadingProgress`'s text. */
  function LoadingText(p: Progress): string {
    match p
    case Percent(n) => if n < 100 then "Loading: " + IntToString(n) + "%" else "Processing..."
    case Start => "Loading..."
    case Other(text) => text
  }

  /** Below 100 the text carries the percentage, which reads back exactly. */
  lemma LoadingTextShowsPercent(n: int)
    requires n < 100
    ensures var s := LoadingText(Percent(n));
      |s| >= 11 && s[..9] == "Loading: " && s[|s| - 1] == '%' && ParseInt(s[9..|s| - 1]) == Some(n)
  {
    var s := LoadingText(Percent(n));
    assert s[9..|s| - 1] == IntToString(n);
    ParseIntOfIntToString(n);
  }

  /** The scene descriptor `scene_info.json`: title, object count, animation flag
      (a missing field reads as `None`, a missing flag as false). */
  datatype SceneInfo = SceneInfo(title: Option<string>, objects: Option<int>, hasAnimations: bool)

  /** `updateSceneInfo`'s title text. */
  function SceneTitleText(info: Option<SceneInfo>): string {
    match info
    case None => "Blender Scene"
    case Some(i) => if i.title.Some? && i.title.value != "" then i.title.value else "Blender Scene"
  }

  /** `updateSceneInfo`'s statistics text. */
  function SceneStatsText(info: Option<SceneInfo>): string {
    match info
    case None => "No scene info available"
    case Some(i) => "Objects: " + (if i.objects.Some? then IntToString(i.objects.value) else "-")
  }

  /** A descriptor's statistics text carries its object count, which reads
      back exactly; '-' appears only when the count is missing. */
  lemma SceneStatsShowsCount(i: SceneInfo)
    ensures var s := SceneStatsText(Some(i));
      |s| >= 10 && s[..9] == "Objects: " &&
      (i.objects.Some? ==> ParseInt(s[9..]) == Some(i.objects.value)) &&
      (i.objects.None? <==> s[9..] == "-")
  {
    var s := SceneStatsText(Some(i));
    if i.objects.Some? {
      assert s[9..] == IntToString(i.objects.value);
      ParseIntOfIntToString(i.objects.value);
      assert s[9..] != "-" by { assert AllDigits(NatToString(if i.objects.value < 0 then -i.objects.value else i.objects.value)); }
    } else {
      assert s[9..] == "-";
    }
  }

  /** `updateNormalsStatus`'s text. */
  function NormalsStatusText(isOn: bool): (s: string)
    ensures s == "ON" <==> isOn
  {
    if isOn then "ON" else "OFF"
  }

  /** `updateShadingStatus`'s label. */
  function ShadingLabel(mode: string): string {
    if mode == "flat" then "Flat Shading" else "Smooth Shading"
  }

  // ---------------------------------------------------------------------
  // Model statistics (`updateModelInfo`)

  /** Sum of `position.count` over the meshes that have a geometry. */
  function TotalVertices(s: seq<Node>): nat {
    if |s| == 0 then 0
    else TotalVertices(s[..|s| - 1]) + (if HasGeometry(s[|s| - 1]) then s[|s| - 1].geometry.value.positionCount.GetOr(0) else 0)
  }

  /** Sum of `index.count` over the meshes that have a geometry. */
  function TotalIndices(s: seq<Node>): nat {
    if |s| == 0 then 0
    else TotalIndices(s[..|s| - 1]) + (if HasGeometry(s[|s| - 1]) then s[|s| - 1].geometry.value.indexCount.GetOr(0) else 0)
  }

  /** Material uuids of the meshes that have a geometry (a mesh without one
      is skipped whole, material included). */
  function MaterialIds(s: seq<Node>): set<nat> {
    if |s| == 0 then {}
    else MaterialIds(s[..|s| - 1]) + (if HasGeometry(s[|s| - 1]) && s[|s| - 1].material.Some? then {s[|s| - 1].material.value.uuid} else {})
  }

  /** The statistics of a scene made of two parts are those of the parts combined. */
  lemma {:induction false} StatsAppend(a: seq<Node>, b: seq<Node>)
    ensures TotalVertices(a + b) == TotalVertices(a) + TotalVertices(b)
    ensures TotalIndices(a + b) == TotalIndices(a) + TotalIndices(b)
    ensures MaterialIds(a + b) == MaterialIds(a) + MaterialIds(b)
    decreases |b|
  {
    if |b| == 0 {
      assert a + b == a;
    } else {
      assert (a + b)[..|a + b| - 1] == a + b[..|b| - 1];
      StatsAppend(a, b[..|b| - 1]);
    }
  }

  /** Materials are counted once however many meshes share them: there are
      never more distinct materials than meshes carrying one. */
  lemma {:induction false} MaterialCountBound(s: seq<Node>)
    ensures |MaterialIds(s)| <= |s|
    decreases |s|
  {
    if |s| > 0 {
      MaterialCountBound(s[..|s| - 1]);
    }
  }

  /** One more node extends each statistic by that node's contribution. */
  lemma StatsStep(nodes: seq<Node>, i: nat)
    requires i < |nodes|
    ensures var c := nodes[i];
      TotalVertices(nodes[..i + 1]) == TotalVertices(nodes[..i]) + (if HasGeometry(c) then c.geometry.value.positionCount.GetOr(0) else 0) &&
      TotalIndices(nodes[..i + 1]) == TotalIndices(nodes[..i]) + (if HasGeometry(c) then c.geometry.value.indexCount.GetOr(0) else 0) &&
      MaterialIds(nodes[..i + 1]) == MaterialIds(nodes[..i]) + (if HasGeometry(c) && c.material.Some? then {c.material.value.uuid} else {})
  {
    assert nodes[..i + 1][..i] == nodes[..i];
  }

  /** A sum of thirds, floored once, is the integer third of the sum. */
  lemma FloorOfThird(total: nat)
    ensures (total as real / 3.0).Floor == total / 3
  {
    var q := total / 3;
    assert total == 3 * q + total % 3;
    assert total as real / 3.0 == q as real + (total % 3) as real / 3.0;
  }

  /** The accumulator loop of `updateModelInfo`: faces are summed as
      `index.count / 3` without rounding; the sum is floored only when shown. */
  method ComputeModelStats(nodes: seq<Node>) returns (vertices: nat, faceSum: real, materials: nat)
    ensures vertices == TotalVertices(nodes)
    ensures faceSum == TotalIndices(nodes) as real / 3.0
    ensures materials == |MaterialIds(nodes)|
  {
    var totalVertices: nat := 0;
    var totalFaces: real := 0.0;
    var seen: set<nat> := {};
    var i := 0;
    while i < |nodes|
      invariant 0 <= i <= |nodes|
      invariant totalVertices == TotalVertices(nodes[..i])
      invariant totalFaces == TotalIndices(nodes[..i]) as real / 3.0
      invariant seen == MaterialIds(nodes[..i])
    {
      var child := nodes[i];
      StatsStep(nodes, i);
      if HasGeometry(child) {
        var geometry := child.geometry.value;
        if geometry.positionCount.Some? {
          totalVertices := totalVertices + geometry.positionCount.value;
        }
        if geometry.indexCount.Some? {
          totalFaces := totalFaces + geometry.indexCount.value as real / 3.0;
        }
        if child.material.Some? {
          seen := seen + {child.material.value.uuid};
        }
      }
      i := i + 1;
    }
    assert nodes[..i] == nodes;
    vertices := totalVertices;
    faceSum := totalFaces;
    materials := |seen|;
  }

  /** A count as the statistics panel shows it: '-' for zero. */
  function CountText(n: int): (s: string)
    ensures s == "-" <==> n == 0
  {
    if n == 0 then "-" else IntToString(n)
  }

  /** The faces statistic: '-' when the unrounded sum is zero, else the sum floored. */
  function FacesText(sum: real): (s: string)
    ensures s == "-" <==> sum == 0.0
  {
    if sum == 0.0 then "-" else IntToString(sum.Floor)
  }

  /** The faces shown for an index total: '-' only for no indices at all,
      otherwise the integer third, which is "0" for a total of one or two. */
  lemma FacesTextOfTotal(total: nat)
    ensures FacesText(total as real / 3.0) == (if total == 0 then "-" else IntToString(total / 3))
    ensures 0 < total < 3 ==> FacesText(total as real / 3.0) == "0"
  {
    FloorOfThird(total);
    if 0 < total < 3 {
      assert total / 3 == 0;
      assert IntToString(0) == "0";
    }
  }

  // ---------------------------------------------------------------------
  // The page

  /** The contents of the elements the viewer writes. */
  datatype PageView = PageView(
    loadingOverlay: string,      // its style.display
    loadingText: string,
    sceneTitle: string,
    sceneStats: string,
    modelVertices: string,
    modelFaces: string,
    modelMaterials: string,
    animationTime: string,
    sliderValue: real,
    sliderMax: real,
    sliderGlobalMax: real,
    controlsDisplay: string,     // the animation controls' style.display
    shadingText: string,
    shadingStatus: string,
    shadingMode: Option<string>, // the shading toggle's data-mode
    normalsStatus: string,
    lightingSlider: real,        // the lighting slider's value, an input
    lightingValue: string,
    panelOpen: bool,             // 'is-open' on the controls panel
    errorMessages: seq<string>)  // error boxes added to the viewer

  class Page {
    var loadingOverlay: string
    var loadingText: string
    var sceneTitle: string
    var sceneStats: string
    var modelVertices: string
    var modelFaces: string
    var modelMaterials: string
    var animationTime: string
    var sliderValue: real
    var sliderMax: real
    var sliderGlobalMax: real
    var controlsDisplay: string
    var shadingText: string
    var shadingStatus: string
    var shadingMode: Option<string>
    var normalsStatus: string
    var lightingSlider: real
    var lightingValue: string
    var panelOpen: bool
    var errorMessages: seq<string>

    function View(): PageView
      reads this
    {
      PageView(loadingOverlay, loadingText, sceneTitle, sceneStats, modelVertices, modelFaces,
        modelMaterials, animationTime, sliderValue, sliderMax, sliderGlobalMax, controlsDisplay,
        shadingText, shadingStatus, shadingMode, normalsStatus, lightingSlider, lightingValue,
        panelOpen, errorMessages)
    }

    /** The page as the HTML delivers it. */
    constructor (v: PageView)
      ensures View() == v
    {
      loadingOverlay, loadingText, sceneTitle, sceneStats := v.loadingOverlay, v.loadingText, v.sceneTitle, v.sceneStats;
      modelVertices, modelFaces, modelMaterials := v.modelVertices, v.modelFaces, v.modelMaterials;
      animationTime, sliderValue, sliderMax, sliderGlobalMax := v.animationTime, v.sliderValue, v.sliderMax, v.sliderGlobalMax;
      controlsDisplay, shadingText, shadingStatus, shadingMode := v.controlsDisplay, v.shadingText, v.shadingStatus, v.shadingMode;
      normalsStatus, lightingSlider, lightingValue := v.normalsStatus, v.lightingSlider, v.lightingValue;
      panelOpen, errorMessages := v.panelOpen, v.errorMessages;
    }
  }

  method ShowLoadingOverlay(dom: DomRefs, page: Page)
    modifies page
    ensures page.View() == old(page.View()).(loadingOverlay := if HasRef(dom, "loadingOverlay") then "flex" else old(page.loadingOverlay))
  {
    if HasRef(dom, "loadingOverlay") {
      page.loadingOverlay := "flex";
    }
  }

  method HideLoadingOverlay(dom: DomRefs, page: Page)
    modifies page
    ensures page.View() == old(page.View()).(loadingOverlay := if HasRef(dom, "loadingOverlay") then "none" else old(page.loadingOverlay))
  {
    if HasRef(dom, "loadingOverlay") {
      page.loadingOverlay := "none";
    }
  }

  method SetLoadingProgress(dom: DomRefs, page: Page, p: Progress)
    modifies page
    ensures page.View() == old(page.View()).(loadingText := if HasRef(dom, "loadingText") then LoadingText(p) else old(page.loadingText))
  {
    if HasRef(dom, "loadingText") {
      page.loadingText := LoadingText(p);
    }
  }

  method UpdateSceneInfo(dom: DomRefs, page: Page, info: Option<SceneInfo>)
    modifies page
    ensures var both := HasRef(dom, "sceneTitle") && HasRef(dom, "sceneStats");
      page.View() == old(page.View()).(
        sceneTitle := if both then SceneTitleText(info) else old(page.sceneTitle),
        sceneStats := if both then SceneStatsText(info) else old(page.sceneStats))
  {
    if HasRef(dom, "sceneTitle") && HasRef(dom, "sceneStats") {
      page.sceneTitle := SceneTitleText(info);
      page.sceneStats := SceneStatsText(info);
    }
  }

  /** The statistics panel after `updateModelInfo` for the given nodes. */
  function ModelInfoView(v: PageView, dom: DomRefs, nodes: seq<Node>): PageView {
    if HasRef(dom, "modelVertices") && HasRef(dom, "modelFaces") && HasRef(dom, "modelMaterials") then
      v.(modelVertices := CountText(TotalVertices(nodes)),
         modelFaces := FacesText(TotalIndices(nodes) as real / 3.0),
         modelMaterials := CountText(|MaterialIds(nodes)|))
    else v
  }

  /** `updateModelInfo` for a loaded model's nodes (`None`: no model). */
  method UpdateModelInfo(dom: DomRefs, page: Page, model: Option<seq<Node>>)
    modifies page
    ensures page.View() == ModelInfoView(old(page.View()), dom, model.GetOr([]))
  {
    if !(HasRef(dom, "modelVertices") && HasRef(dom, "modelFaces") && HasRef(dom, "modelMaterials")) {
      return;
    }
    var nodes := model.GetOr([]);
    var vertices, faceSum, materials := ComputeModelStats(nodes);
    WriteModelStats(page, CountText(vertices), FacesText(faceSum), CountText(materials));
  }

  /** The three statistics' texts written. */
  method WriteModelStats(page: Page, vertices: string, faces: string, materials: string)
    modifies page
    ensures page.View() == old(page.View()).(modelVertices := vertices, modelFaces := faces, modelMaterials := materials)
  {
    page.modelVertices := vertices;
    page.modelFaces := faces;
    page.modelMaterials := materials;
  }

  method UpdateAnimationTimeDisplay(dom: DomRefs, page: Page, time: real, duration: real)
    modifies page
    ensures page.View() == old(page.View()).(animationTime := if HasRef(dom, "animationTime") then TimeDisplay(time, duration) else old(page.animationTime))
  {
    if HasRef(dom, "animationTime") {
      page.animationTime := TimeDisplay(time, duration);
    }
  }

  /** The animation slider's value (the helper actions.js imports for this
      is not defined in ui.js; this is the write it evidently stands for). */
  method SetAnimationSliderValue(dom: DomRefs, page: Page, value: real)
    modifies page
    ensures page.View() == old(page.View()).(sliderValue := if HasRef(dom, "animationSlider") then value else old(page.sliderValue))
  {
    if HasRef(dom, "animationSlider") {
      page.sliderValue := value;
    }
  }

  /** The animation controls' `style.display`, when the element exists. */
  method ShowAnimationControls(dom: DomRefs, page: Page, display: string)
    modifies page
    ensures page.View() == old(page.View()).(controlsDisplay := if HasRef(dom, "animationControls") then display else old(page.controlsDisplay))
  {
    if HasRef(dom, "animationControls") {
      page.controlsDisplay := display;
    }
  }

  /** The animation slider's bounds and value set to 0, when it exists. */
  method EmptyAnimationSlider(dom: DomRefs, page: Page)
    modifies page
    ensures page.View() == old(page.View()).(
      sliderMax := if HasRef(dom, "animationSlider") then 0.0 else old(page.sliderMax),
      sliderValue := if HasRef(dom, "animationSlider") then 0.0 else old(page.sliderValue))
  {
    if HasRef(dom, "animationSlider") {
      page.sliderMax := 0.0;
      page.sliderValue := 0.0;
    }
  }

  method UpdateShadingStatus(dom: DomRefs, page: Page, mode: string)
    modifies page
    ensures var both := HasRef(dom, "shadingText") && HasRef(dom, "shadingStatus");
      page.View() == old(page.View()).(
        shadingText := if both then ShadingLabel(mode) else old(page.shadingText),
        shadingStatus := if both then "ON" else old(page.shadingStatus))
  {
    if HasRef(dom, "shadingText") && HasRef(dom, "shadingStatus") {
      page.shadingText := ShadingLabel(mode);
      page.shadingStatus := "ON";
    }
  }

  method UpdateNormalsStatus(dom: DomRefs, page: Page, isOn: bool)
    modifies page
    ensures page.View() == old(page.View()).(normalsStatus := if HasRef(dom, "normalsStatus") then NormalsStatusText(isOn) else old(page.normalsStatus))
  {
    if HasRef(dom, "normalsStatus") {
      page.normalsStatus := NormalsStatusText(isOn);
    }
  }

  method UpdateLightingDisplay(dom: DomRefs, page: Page, value: real)
    modifies page
    ensures page.View() == old(page.View()).(lightingValue := if HasRef(dom, "lightingValue") then Fixed1(value) else old(page.lightingValue))
  {
    if HasRef(dom, "lightingValue") {
      page.lightingValue := Fixed1(value);
    }
  }

  /** `showErrorMessage`: a message box is added to the viewer container. */
  method ShowErrorMessage(dom: DomRefs, page: Page, message: string)
    modifies page
    ensures page.View() == old(page.View()).(errorMessages := if HasRef(dom, "viewer") then old(page.errorMessages) + [message] else old(page.errorMessages))
  {
    if HasRef(dom, "viewer") {
      page.errorMessages := page.errorMessages + [message];
    }
  }

  /** The shading mode the toggle starts in: its own, or 'smooth' when it has none. */
  function InitialShadingMode(mode: Option<string>): string {
    if mode.Some? && mode.value != "" then mode.value else "smooth"
  }

  /** The page after `initializeUI` stored `refs` (the merged references are `dom`). */
  function InitUIPage(v: PageView, dom: DomRefs, refs: DomRefs): PageView {
    var mode := InitialShadingMode(v.shadingMode);
    var both := HasRef(dom, "shadingText") && HasRef(dom, "shadingStatus");
    var v1 := if HasRef(refs, "shadingToggle") then
        v.(shadingMode := Some(mode),
           shadingText := if both then ShadingLabel(mode) else v.shadingText,
           shadingStatus := if both then "ON" else v.shadingStatus)
      else v;
    var v2 := v1.(normalsStatus := if HasRef(dom, "normalsStatus") then NormalsStatusText(false) else v1.normalsStatus);
    if HasRef(refs, "lightingSlider") && HasRef(dom, "lightingValue") then v2.(lightingValue := Fixed1(v.lightingSlider))
    else v2
  }

  /** `initializeUI`: store the looked-up element references, default the
      shading mode to 'smooth', show normals OFF and the lighting slider's value. */
  method InitializeUI(st: State, page: Page, refs: DomRefs)
    modifies st, page
    ensures st.Record() == old(st.Record()).(dom := MergeDomRefs(old(st.dom), refs))
    ensures page.View() == InitUIPage(old(page.View()), st.dom, refs)
  {
    st.SetDomRefs(refs);
    if HasRef(refs, "shadingToggle") {
      var mode := InitialShadingMode(page.shadingMode);
      page.shadingMode := Some(mode);
      UpdateShadingStatus(st.dom, page, mode);
    }
    UpdateNormalsStatus(st.dom, page, false);
    if HasRef(refs, "lightingSlider") {
      UpdateLightingDisplay(st.dom, page, page.lightingSlider);
    }
  }

  /** After `initializeUI` the normals status reads OFF and, given a shading
      toggle, the toggle holds a mode that is never empty. */
  lemma InitUIDefaults(v: PageView, dom: DomRefs, refs: DomRefs)
    ensures var w := InitUIPage(v, dom, refs);
      (HasRef(dom, "normalsStatus") ==> w.normalsStatus == "OFF") &&
      (HasRef(refs, "shadingToggle") ==>
        w.shadingMode.Some? && w.shadingMode.value != "" && (v.shadingMode.None? ==> w.shadingMode == Some("smooth")))
  {
  }
}
