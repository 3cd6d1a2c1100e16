/** The viewer's single shared record (web_vite/src/viewer/state.js): the
    DOM references, the rendering-engine handles, the animation actions and
    the playback flags. The rendering-engine objects are values carrying
    only the attributes the viewer reads or writes. */
module ViewerState {
  import opened Common
  import opened SceneGraph

  /** `THREE.LoopOnce` / `THREE.LoopRepeat`. */
  datatype LoopMode = Once | Repeat

  /** One clip bound to the scene (`AnimationAction`); `running` is whether
      the mixer has it scheduled (`play()` sets it, `stop()` clears it). */
  datatype Action = Action(clip: nat, paused: bool, running: bool, time: real, loop: LoopMode, clampWhenFinished: bool)

  /** A decoded animation clip. */
  datatype Clip = Clip(duration: real)

  /** The animation mixer, seen as a clock: `setTime(t)` sets `time`, `update(dt)` adds `dt`. */
  datatype Mixer = Mixer(time: real)

  /** The camera: its position, vertical field of view in degrees, and the
      point it was last turned toward with `lookAt`, if any. */
  datatype Camera = Camera(position: Vec3, fov: real, lookingAt: Option<Vec3>)

  /** Orbit controls: the point they orbit, and how many times `update()` ran. */
  datatype OrbitControls = OrbitControls(target: Vec3, updates: nat)

  /** The renderer: frames drawn so far, and the mixer as it stood at the last frame. */
  datatype Renderer = Renderer(frames: nat, lastMixer: Option<Mixer>)

  /** The ground grid object; its visibility flag lives here because the
      state holds the same object as the scene. */
  datatype GridHelper = GridHelper(visible: bool)

  /** The normals overlay the state refers to; `target` is the mesh it draws. */
  datatype HelperRef = HelperRef(target: nat)

  /** An object the viewer only holds on to (a DOM element, the clock, a model root). */
  datatype Handle = Handle(id: nat)

  type DomRefs = map<string, Option<Handle>>

  /** The DOM reference names the record starts with. */
  const DomKeys: set<string> := {
    "viewer", "loadingOverlay", "loadingText", "sceneTitle", "sceneStats",
    "modelVertices", "modelFaces", "modelMaterials", "modelFilesize",
    "animationControls", "animationSlider", "animationTime",
    "shadingToggle", "shadingStatus", "shadingText", "normalsToggle", "normalsStatus",
    "wireframeToggle", "gridToggle", "lightsToggle", "resetCamera",
    "topView", "frontView", "sideView", "playButton", "pauseButton", "stopButton",
    "lightingSlider", "lightingValue", "toggleControls", "controlsPanel"
  }

  /** Whether the DOM reference `key` is set (not `null`/`undefined`). */
  predicate HasRef(dom: DomRefs, key: string) {
    key in dom && dom[key].Some?
  }

  /** The whole record as one value. */
  datatype StateRecord = StateRecord(
    dom: DomRefs,
    scene: Option<seq<Node>>,
    camera: Option<Camera>,
    renderer: Option<Renderer>,
    controls: Option<OrbitControls>,
    grid: Option<GridHelper>,
    mixer: Option<Mixer>,
    clock: Option<Handle>,
    animationActions: seq<Action>,
    animationDuration: real,
    isPlaying: bool,
    normalsHelper: Option<HelperRef>,
    modelRoot: Option<Handle>)

  /** The record at page load: every DOM reference and every handle null,
      no actions, duration 0, not playing. */
  function Initial(): (r: StateRecord)
    ensures r.dom.Keys == DomKeys && forall k :: k in r.dom ==> r.dom[k].None?
    ensures r.scene.None? && r.camera.None? && r.renderer.None? && r.controls.None?
    ensures r.grid.None? && r.mixer.None? && r.clock.None? && r.normalsHelper.None? && r.modelRoot.None?
    ensures r.animationActions == [] && r.animationDuration == 0.0 && !r.isPlaying
  {
    StateRecord(map k | k in DomKeys :: None, None, None, None, None, None, None, None, [], 0.0, false, None, None)
  }

  /** `setDomRefs`: the argument's keys overwrite, every other reference keeps its value. */
  function MergeDomRefs(dom: DomRefs, refs: DomRefs): (r: DomRefs)
    ensures r.Keys == dom.Keys + refs.Keys
    ensures forall k :: k in refs ==> r[k] == refs[k]
    ensures forall k :: k in dom && k !in refs ==> r[k] == dom[k]
  {
    dom + refs
  }

  /** The normals overlay bookkeeping agrees with the scene: at most one
      overlay exists, it is in the scene exactly when the state refers to it,
      and (no scene) there is nothing to refer to. */
  predicate HelperConsistent(r: StateRecord) {
    match r.scene
    case None => r.normalsHelper.None?
    case Some(nodes) =>
      HelperCount(nodes) == (if r.normalsHelper.Some? then 1 else 0) &&
      (r.normalsHelper.Some? ==> Helper(r.normalsHelper.value.target) in nodes)
  }

  class State {
    var dom: DomRefs
    var scene: Option<seq<Node>>
    var camera: Option<Camera>
    var renderer: Option<Renderer>
    var controls: Option<OrbitControls>
    var grid: Option<GridHelper>
    var mixer: Option<Mixer>
    var clock: Option<Handle>
    var animationActions: seq<Action>
    var animationDuration: real
    var isPlaying: bool
    var normalsHelper: Option<HelperRef>
    var modelRoot: Option<Handle>

    function Record(): StateRecord
      reads this
    {
      StateRecord(dom, scene, camera, renderer, controls, grid, mixer, clock,
        animationActions, animationDuration, isPlaying, normalsHelper, modelRoot)
    }

    constructor ()
      ensures Record() == Initial()
    {
      dom := map k | k in DomKeys :: None;
      scene, camera, renderer, controls, grid := None, None, None, None, None;
      mixer, clock := None, None;
      animationActions, animationDuration, isPlaying := [], 0.0, false;
      normalsHelper, modelRoot := None, None;
    }

    method SetDomRefs(refs: DomRefs)
      modifies this
      ensures Record() == old(Record()).(dom := MergeDomRefs(old(dom), refs))
      ensures GetDomRefs() == MergeDomRefs(old(dom), refs)
    {
      dom := dom + refs;
    }

    function GetDomRefs(): DomRefs reads this { dom }

    method SetScene(value: Option<seq<Node>>)
      modifies this
      ensures Record() == old(Record()).(scene := value) && GetScene() == value
    {
      scene := value;
    }

    function GetScene(): Option<seq<Node>> reads this { scene }

    method SetCamera(value: Option<Camera>)
      modifies this
      ensures Record() == old(Record()).(camera := value) && GetCamera() == value
    {
      camera := value;
    }

    function GetCamera(): Option<Camera> reads this { camera }

    method SetRenderer(value: Option<Renderer>)
      modifies this
      ensures Record() == old(Record()).(renderer := value) && GetRenderer() == value
    {
      renderer := value;
    }

    function GetRenderer(): Option<Renderer> reads this { renderer }

    method SetControls(value: Option<OrbitControls>)
      modifies this
      ensures Record() == old(Record()).(controls := value) && GetControls() == value
    {
      controls := value;
    }

    function GetControls(): Option<OrbitControls> reads this { controls }

    method SetGrid(value: Option<GridHelper>)
      modifies this
      ensures Record() == old(Record()).(grid := value) && GetGrid() == value
    {
      grid := value;
    }

    function GetGrid(): Option<GridHelper> reads this { grid }

    method SetMixer(value: Option<Mixer>)
      modifies this
      ensures Record() == old(Record()).(mixer := value) && GetMixer() == value
    {
      mixer := value;
    }

    function GetMixer(): Option<Mixer> reads this { mixer }

    method SetClock(value: Option<Handle>)
      modifies this
      ensures Record() == old(Record()).(clock := value) && GetClock() == value
    {
      clock := value;
    }

    function GetClock(): Option<Handle> reads this { clock }

    method SetAnimationActions(value: seq<Action>)
      modifies this
      ensures Record() == old(Record()).(animationActions := value) && GetAnimationActions() == value
    {
      animationActions := value;
    }

    function GetAnimationActions(): seq<Action> reads this { animationActions }

    method SetAnimationDuration(value: real)
      modifies this
      ensures Record() == old(Record()).(animationDuration := value) && GetAnimationDuration() == value
    {
      animationDuration := value;
    }

    function GetAnimationDuration(): real reads this { animationDuration }

    method SetIsPlaying(value: bool)
      modifies this
      ensures Record() == old(Record()).(isPlaying := value) && IsPlaying() == value
    {
      isPlaying := value;
    }

    function IsPlaying(): bool reads this { isPlaying }

    method SetNormalsHelper(value: Option<HelperRef>)
      modifies this
      ensures Record() == old(Record()).(normalsHelper := value) && GetNormalsHelper() == value
    {
      normalsHelper := value;
    }

    function GetNormalsHelper(): Option<HelperRef> reads this { normalsHelper }

    method SetModelRoot(value: Option<Handle>)
      modifies this
      ensures Record() == old(Record()).(modelRoot := value) && GetModelRoot() == value
    {
      modelRoot := value;
    }

    function GetModelRoot(): Option<Handle> reads this { modelRoot }
  }

  /** A DOM reference set by `setDomRefs` reads back as given; one it did
      not name reads back as before, so a reference is null until supplied. */
  lemma DomRefsLastWriteWins(refs: DomRefs, key: string)
    requires key in DomKeys
    ensures HasRef(MergeDomRefs(Initial().dom, refs), key) <==> HasRef(refs, key)
  {
  }
}
