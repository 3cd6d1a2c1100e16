/** The viewer's commands (web_vite/src/viewer/actions.js): playback of the
    animation actions, the display toggles over the scene, and the camera
    moves. Each command is a method on the shared `State` (and the `Page`
    it writes to), proved equal to a function of the record before it. */
module Actions {
  import opened Common
  import opened SceneGraph
  import opened ViewerState
  import opened Ui
  import Animation
  import Text

  // ---------------------------------------------------------------------
  // Per-action effects

  /** `setAnimationLoopMode` on one action: once clamps at the end, repeat does not. */
  function WithLoop(a: Action, mode: LoopMode): Action {
    a.(loop := mode, clampWhenFinished := mode == Once)
  }

  /** `setAnimationLoopMode(actions, mode)`. */
  function LoopAll(acts: seq<Action>, mode: LoopMode): seq<Action> {
    MapSeq((a: Action) => WithLoop(a, mode), acts)
  }

  /** Playing: repeat, unpaused, scheduled. */
  function PlayAction(a: Action): Action {
    WithLoop(a, Repeat).(paused := false, running := true)
  }

  /** Pausing: once, paused; still scheduled and at the same time. */
  function PauseAction(a: Action): Action {
    WithLoop(a, Once).(paused := true)
  }

  /** Stopping: once, unscheduled, unpaused and back at time 0 (`action.stop()` resets it). */
  function StopAction(a: Action): Action {
    WithLoop(a, Once).(paused := false, running := false, time := 0.0)
  }

  /** Seeking to `t`: every action scheduled at `t`; then either paused in
      loop-once (when playback was paused) or unpaused in repeat (when it was playing). */
  /** The first half of a seek: loop-once, unpaused and scheduled at `t`. */
  function PoseAction(a: Action, t: real): Action {
    WithLoop(a, Once).(paused := false, running := true, time := t)
  }

  /** The second half of a seek: back to playing when it was, held at `t` otherwise. */
  function ResumeAction(a: Action, t: real, wasPlaying: bool): Action {
    if wasPlaying then PlayAction(a) else a.(paused := true, time := t)
  }

  function SeekAction(a: Action, t: real, wasPlaying: bool): Action {
    ResumeAction(PoseAction(a, t), t, wasPlaying)
  }

  /** `seekAnimation`'s target: not below 0 and, for a clip of positive length, not past its end. */
  function ClampSeek(t: real, duration: real): real {
    Max(0.0, if duration > 0.0 then Min(t, duration) else t)
  }

  /** The nudge `seekAnimation` gives the mixer after setting its time. */
  const SeekNudge: real := 0.000001

  // ---------------------------------------------------------------------
  // Whole-record effects

  /** Playback commands other than pause need a mixer and at least one action. */
  predicate HasPlayback(r: StateRecord) {
    r.mixer.Some? && |r.animationActions| > 0
  }

  function PlayRecord(r: StateRecord): StateRecord {
    if HasPlayback(r) then r.(animationActions := MapSeq(PlayAction, r.animationActions), isPlaying := true)
    else r
  }

  function PauseRecord(r: StateRecord): StateRecord {
    if |r.animationActions| > 0 then r.(animationActions := MapSeq(PauseAction, r.animationActions), isPlaying := false)
    else r
  }

  function StopRecord(r: StateRecord): StateRecord {
    if HasPlayback(r) then
      r.(animationActions := MapSeq(StopAction, r.animationActions), mixer := Some(Mixer(0.0)), isPlaying := false)
    else r
  }

  function SeekRecord(r: StateRecord, t: real): StateRecord {
    if HasPlayback(r) then
      var c := ClampSeek(t, r.animationDuration);
      r.(animationActions := MapSeq((a: Action) => SeekAction(a, c, r.isPlaying), r.animationActions),
         mixer := Some(Mixer(c + SeekNudge)))
    else r
  }

  /** The actions `mixer.clipAction` makes for the clips, in clip order:
      unpaused, unscheduled, at time 0, in the mixer's default loop-repeat. */
  function NewActions(clips: seq<Clip>): (acts: seq<Action>)
    ensures |acts| == |clips|
    ensures forall i :: 0 <= i < |acts| ==> acts[i] == Action(i, false, false, 0.0, Repeat, false)
  {
    seq(|clips|, (i: int) requires 0 <= i => Action(i, false, false, 0.0, Repeat, false))
  }

  /** `initializeAnimations`: nothing without clips; otherwise one action per
      clip with the first one playing, the duration recorded, playing, and the mixer stored. */
  function InitRecord(r: StateRecord, clips: seq<Clip>, duration: real, mixer: Mixer): StateRecord {
    if |clips| == 0 then r
    else
      var acts := LoopAll(NewActions(clips), Repeat);
      r.(animationActions := acts[0 := acts[0].(running := true)], animationDuration := duration,
         isPlaying := true, mixer := Some(mixer))
  }

  // ---------------------------------------------------------------------
  // Page effects of the playback commands

  function StopPage(v: PageView, r: StateRecord): PageView {
    if HasPlayback(r) && HasRef(r.dom, "animationTime") then v.(animationTime := TimeDisplay(0.0, r.animationDuration))
    else v
  }

  function SeekPage(v: PageView, r: StateRecord, t: real): PageView {
    if HasPlayback(r) then
      var c := ClampSeek(t, r.animationDuration);
      SeekDisplay(v, r.dom, c, r.animationDuration)
    else v
  }

  /** The slider and the time display showing time `c` of a clip of length `duration`. */
  function SeekDisplay(v: PageView, dom: DomRefs, c: real, duration: real): PageView {
    v.(sliderValue := if HasRef(dom, "animationSlider") then c else v.sliderValue,
       animationTime := if HasRef(dom, "animationTime") then TimeDisplay(c, duration) else v.animationTime)
  }

  function InitPage(v: PageView, dom: DomRefs, clips: seq<Clip>, duration: real): PageView {
    if |clips| == 0 then v
    else
      v.(sliderMax := if HasRef(dom, "animationSlider") then duration else v.sliderMax,
         sliderGlobalMax := if HasRef(dom, "animationSliderGlobal") then duration else v.sliderGlobalMax,
         sliderValue := if HasRef(dom, "animationSlider") then 0.0 else v.sliderValue,
         animationTime := if HasRef(dom, "animationTime") then TimeDisplay(0.0, duration) else v.animationTime)
  }

  // ---------------------------------------------------------------------
  // The loops over the actions

  /** `actions.forEach(f)` on the stored actions; nothing else changes. */
  method UpdateActions(st: State, f: Action -> Action)
    modifies st
    ensures |st.animationActions| == |old(st.animationActions)|
    ensures forall i :: 0 <= i < |st.animationActions| ==> st.animationActions[i] == f(old(st.animationActions)[i])
    ensures st.Record() == old(st.Record()).(animationActions := st.animationActions)
  {
    var i := 0;
    while i < |st.animationActions|
      invariant 0 <= i <= |st.animationActions| == |old(st.animationActions)|
      invariant forall j :: 0 <= j < i ==> st.animationActions[j] == f(old(st.animationActions)[j])
      invariant forall j :: i <= j < |st.animationActions| ==> st.animationActions[j] == old(st.animationActions)[j]
      invariant st.Record() == old(st.Record()).(animationActions := st.animationActions)
    {
      st.SetAnimationActions(st.animationActions[i := f(st.animationActions[i])]);
      i := i + 1;
    }
  }

  /** The loop mode of every stored action. */
  method SetAnimationLoopMode(st: State, mode: LoopMode)
    modifies st
    ensures st.Record() == old(st.Record()).(animationActions := LoopAll(old(st.animationActions), mode))
  {
    UpdateActions(st, (a: Action) => WithLoop(a, mode));
    assert st.animationActions == LoopAll(old(st.animationActions), mode);
  }

  method PlayAnimations(st: State)
    modifies st
    ensures st.Record() == PlayRecord(old(st.Record()))
  {
    var mixer := st.GetMixer();
    var actions := st.GetAnimationActions();
    if mixer.None? || |actions| == 0 {
      return;
    }
    SetAnimationLoopMode(st, Repeat);
    UpdateActions(st, (a: Action) => a.(paused := false, running := true));
    st.SetIsPlaying(true);
    assert st.animationActions == MapSeq(PlayAction, actions);
  }

  method PauseAnimations(st: State)
    modifies st
    ensures st.Record() == PauseRecord(old(st.Record()))
  {
    var actions := st.GetAnimationActions();
    if |actions| == 0 {
      return;
    }
    SetAnimationLoopMode(st, Once);
    UpdateActions(st, (a: Action) => a.(paused := true));
    st.SetIsPlaying(false);
    assert st.animationActions == MapSeq(PauseAction, actions);
  }

  method StopAnimations(st: State, page: Page)
    modifies st, page
    ensures st.Record() == StopRecord(old(st.Record()))
    ensures page.View() == StopPage(old(page.View()), old(st.Record()))
  {
    var mixer := st.GetMixer();
    var actions := st.GetAnimationActions();
    if mixer.None? || |actions| == 0 {
      return;
    }
    SetAnimationLoopMode(st, Once);
    UpdateActions(st, (a: Action) => a.(running := false, paused := false, time := 0.0));
    st.SetMixer(Some(Mixer(0.0)));
    st.SetIsPlaying(false);
    assert st.animationActions == MapSeq(StopAction, actions);
    UpdateAnimationTimeDisplay(st.GetDomRefs(), page, 0.0, st.GetAnimationDuration());
  }

  method SeekAnimation(st: State, page: Page, time: real)
    modifies st, page
    ensures st.Record() == SeekRecord(old(st.Record()), time)
    ensures page.View() == SeekPage(old(page.View()), old(st.Record()), time)
  {
    var mixer := st.GetMixer();
    var actions := st.GetAnimationActions();
    if mixer.None? || |actions| == 0 {
      return;
    }
    var duration := st.GetAnimationDuration();
    var clampedTime := Max(0.0, if duration > 0.0 then Min(time, duration) else time);
    var wasPlaying := st.IsPlaying();
    PoseActions(st, clampedTime);
    st.SetMixer(Some(Mixer(clampedTime)));
    st.SetMixer(Some(Mixer(st.mixer.value.time + SeekNudge)));
    ShowSeekTime(st.GetDomRefs(), page, clampedTime, duration);
    ResumeMode(st, clampedTime, wasPlaying);
    st.SetIsPlaying(wasPlaying);
    assert forall i :: 0 <= i < |actions| ==> st.animationActions[i] == SeekAction(actions[i], clampedTime, wasPlaying);
    assert st.animationActions == MapSeq((a: Action) => SeekAction(a, clampedTime, wasPlaying), actions);
  }

  /** `seekAnimation`'s two page writes: the slider and the time display. */
  method ShowSeekTime(dom: DomRefs, page: Page, c: real, duration: real)
    modifies page
    ensures page.View() == SeekDisplay(old(page.View()), dom, c, duration)
  {
    SetAnimationSliderValue(dom, page, c);
    UpdateAnimationTimeDisplay(dom, page, c, duration);
  }

  /** The first half of a seek on every stored action; nothing else changes. */
  method PoseActions(st: State, t: real)
    modifies st
    ensures |st.animationActions| == |old(st.animationActions)|
    ensures forall i :: 0 <= i < |st.animationActions| ==> st.animationActions[i] == PoseAction(old(st.animationActions)[i], t)
    ensures st.Record() == old(st.Record()).(animationActions := st.animationActions)
  {
    SetAnimationLoopMode(st, Once);
    UpdateActions(st, (a: Action) => a.(paused := false, running := true, time := t));
  }

  /** The second half of a seek on every stored action; nothing else changes. */
  method ResumeMode(st: State, t: real, wasPlaying: bool)
    modifies st
    ensures |st.animationActions| == |old(st.animationActions)|
    ensures forall i :: 0 <= i < |st.animationActions| ==> st.animationActions[i] == ResumeAction(old(st.animationActions)[i], t, wasPlaying)
    ensures st.Record() == old(st.Record()).(animationActions := st.animationActions)
  {
    if !wasPlaying {
      UpdateActions(st, (a: Action) => a.(paused := true, time := t));
    } else {
      SetAnimationLoopMode(st, Repeat);
      UpdateActions(st, (a: Action) => a.(paused := false, running := true));
    }
  }

  /** `gltf.animations.map(clip => mixer.clipAction(clip))`. */
  method ClipActions(clips: seq<Clip>) returns (actions: seq<Action>)
    ensures actions == NewActions(clips)
  {
    actions := [];
    var i := 0;
    while i < |clips|
      invariant 0 <= i <= |clips|
      invariant actions == NewActions(clips)[..i]
    {
      actions := actions + [Action(i, false, false, 0.0, Repeat, false)];
      i := i + 1;
    }
  }

  /** The slider and time-display writes of `initializeAnimations`. */
  method InitializeAnimationPage(dom: DomRefs, page: Page, duration: real)
    modifies page
    ensures page.View() == InitPage(old(page.View()), dom, [Clip(duration)], duration)
  {
    if HasRef(dom, "animationSlider") {
      page.sliderMax := duration;
    }
    if HasRef(dom, "animationSliderGlobal") {
      page.sliderGlobalMax := duration;
    }
    SetAnimationSliderValue(dom, page, 0.0);
    UpdateAnimationTimeDisplay(dom, page, 0.0, duration);
  }

  method InitializeAnimations(st: State, page: Page, clips: seq<Clip>, duration: real, mixer: Mixer)
    modifies st, page
    ensures st.Record() == InitRecord(old(st.Record()), clips, duration, mixer)
    ensures page.View() == InitPage(old(page.View()), old(st.dom), clips, duration)
  {
    if |clips| == 0 {
      return;
    }
    var actions := ClipActions(clips);
    st.SetAnimationActions(actions);
    SetAnimationLoopMode(st, Repeat);
    var dom := st.GetDomRefs();
    InitializeAnimationPage(dom, page, duration);
    st.SetAnimationDuration(duration);
    st.SetAnimationActions(st.animationActions[0 := st.animationActions[0].(running := true)]);
    st.SetIsPlaying(true);
    st.SetMixer(Some(mixer));
  }

  // ---------------------------------------------------------------------
  // Playback properties

  /** The seek target lies in [0, duration] (only bounded below for a clip
      without length) and a target already in range is kept as is. */
  lemma ClampSeekRange(t: real, duration: real)
    ensures 0.0 <= ClampSeek(t, duration)
    ensures duration > 0.0 ==> ClampSeek(t, duration) <= duration
    ensures 0.0 <= t && (duration > 0.0 ==> t <= duration) ==> ClampSeek(t, duration) == t
    ensures t < 0.0 ==> ClampSeek(t, duration) == 0.0
    ensures duration > 0.0 && t > duration ==> ClampSeek(t, duration) == duration
  {
  }

  /** Seeking keeps playback's mode: a playing viewer goes on playing in
      repeat from the target, a paused one stays paused in loop-once at it;
      every action is scheduled at the target and the clip order is kept. */
  lemma SeekKeepsMode(r: StateRecord, t: real)
    requires HasPlayback(r)
    ensures var c := ClampSeek(t, r.animationDuration);
      var s := SeekRecord(r, t);
      s.isPlaying == r.isPlaying && s.mixer == Some(Mixer(c + SeekNudge)) &&
      |s.animationActions| == |r.animationActions| &&
      forall i :: 0 <= i < |s.animationActions| ==>
        s.animationActions[i].clip == r.animationActions[i].clip &&
        s.animationActions[i].time == c && s.animationActions[i].running &&
        s.animationActions[i].paused == !r.isPlaying &&
        (s.animationActions[i].loop == Repeat <==> r.isPlaying) &&
        s.animationActions[i].clampWhenFinished == !r.isPlaying
  {
  }

  /** Play after a seek resumes every action from the seek target, unpaused, in repeat. */
  lemma SeekThenPlayResumes(r: StateRecord, t: real)
    requires HasPlayback(r)
    ensures var p := PlayRecord(SeekRecord(r, t));
      p.isPlaying && |p.animationActions| == |r.animationActions| &&
      forall i :: 0 <= i < |p.animationActions| ==>
        p.animationActions[i] == Action(r.animationActions[i].clip, false, true, ClampSeek(t, r.animationDuration), Repeat, false)
  {
  }

  /** The guards: without a mixer or without actions, play, stop and seek
      change nothing; pause needs only the actions, not the mixer. */
  lemma PlaybackGuards(r: StateRecord, t: real)
    ensures !HasPlayback(r) ==> PlayRecord(r) == r && StopRecord(r) == r && SeekRecord(r, t) == r
    ensures |r.animationActions| == 0 ==> PauseRecord(r) == r
    ensures |r.animationActions| > 0 ==>
      !PauseRecord(r).isPlaying && PauseRecord(r).mixer == r.mixer &&
      forall i :: 0 <= i < |r.animationActions| ==>
        PauseRecord(r).animationActions[i] == r.animationActions[i].(loop := Once, clampWhenFinished := true, paused := true)
  {
  }

  /** Play and pause are idempotent, and stop after stop changes nothing. */
  lemma PlaybackIdempotent(r: StateRecord)
    ensures PlayRecord(PlayRecord(r)) == PlayRecord(r)
    ensures PauseRecord(PauseRecord(r)) == PauseRecord(r)
    ensures StopRecord(StopRecord(r)) == StopRecord(r)
  {
    if HasPlayback(r) {
      assert MapSeq(PlayAction, MapSeq(PlayAction, r.animationActions)) == MapSeq(PlayAction, r.animationActions);
      assert MapSeq(StopAction, MapSeq(StopAction, r.animationActions)) == MapSeq(StopAction, r.animationActions);
    }
    if |r.animationActions| > 0 {
      assert MapSeq(PauseAction, MapSeq(PauseAction, r.animationActions)) == MapSeq(PauseAction, r.animationActions);
    }
  }

  /** Stop rewinds: every action is unscheduled at time 0, the mixer's clock
      is 0 and the viewer is not playing; the clip order is kept. */
  lemma StopRewinds(r: StateRecord)
    requires HasPlayback(r)
    ensures var s := StopRecord(r);
      !s.isPlaying && s.mixer == Some(Mixer(0.0)) && |s.animationActions| == |r.animationActions| &&
      forall i :: 0 <= i < |s.animationActions| ==>
        s.animationActions[i] == Action(r.animationActions[i].clip, false, false, 0.0, Once, true)
  {
  }

  /** The playing flag is only ever set together with a mixer and at least one
      action: every playback command and loading the clips keep this. */
  predicate PlaybackConsistent(r: StateRecord) {
    r.isPlaying ==> HasPlayback(r)
  }

  lemma PlaybackConsistentKept(r: StateRecord, t: real, clips: seq<Clip>, duration: real, mixer: Mixer)
    requires PlaybackConsistent(r)
    ensures PlaybackConsistent(PlayRecord(r)) && PlaybackConsistent(PauseRecord(r))
    ensures PlaybackConsistent(StopRecord(r)) && PlaybackConsistent(SeekRecord(r, t))
    ensures PlaybackConsistent(InitRecord(r, clips, duration, mixer))
  {
  }

  /** Loading clips leaves exactly the first action scheduled, all at time 0 in repeat. */
  lemma InitPlaysFirstClip(r: StateRecord, clips: seq<Clip>, duration: real, mixer: Mixer)
    requires |clips| > 0
    ensures var s := InitRecord(r, clips, duration, mixer);
      s.isPlaying && s.mixer == Some(mixer) && s.animationDuration == duration &&
      |s.animationActions| == |clips| &&
      forall i :: 0 <= i < |clips| ==>
        s.animationActions[i] == Action(i, false, i == 0, 0.0, Repeat, false)
  {
  }

  /** The worked example of a ten-second clip: play, one frame of four
      seconds, pause, then seek past the end. The seek lands on the end,
      the actions stay paused, and the display reads "0:10 / 0:10". */
  lemma PauseThenSeekPastEnd(r: StateRecord, v: PageView)
    requires r.mixer == Some(Mixer(0.0)) && |r.animationActions| == 1 && r.animationDuration == 10.0
    requires HasRef(r.dom, "animationTime")
    ensures var played := PlayRecord(r);
      var ticked := Animation.TickRecord(played, 4.0);
      var paused := PauseRecord(ticked);
      var sought := SeekRecord(paused, 12.0);
      ticked.mixer == Some(Mixer(4.0)) &&
      sought.mixer == Some(Mixer(10.0 + SeekNudge)) && !sought.isPlaying &&
      sought.animationActions[0].paused && sought.animationActions[0].time == 10.0 &&
      SeekPage(v, paused, 12.0).animationTime == "0:10 / 0:10"
  {
    assert FormatTime(10.0) == "0:10" by {
      JsRemRange(10.0, 60.0);
      assert (10.0 / 60.0).Floor == 0;
      assert JsRem(10.0, 60.0) == 10.0;
      assert Text.NatToString(10) == Text.NatToString(1) + [Text.DigitChar(0)];
    }
  }

  // ---------------------------------------------------------------------
  // Display toggles

  /** `scene.traverse(f)` on the stored scene; nothing else changes. */
  method TraverseScene(st: State, f: Node -> Node)
    requires st.scene.Some?
    modifies st
    ensures st.scene.Some? && |st.scene.value| == |old(st.scene.value)|
    ensures forall i :: 0 <= i < |st.scene.value| ==> st.scene.value[i] == f(old(st.scene.value)[i])
    ensures st.Record() == old(st.Record()).(scene := st.scene)
  {
    var i := 0;
    while i < |st.scene.value|
      invariant st.scene.Some? && 0 <= i <= |st.scene.value| == |old(st.scene.value)|
      invariant forall j :: 0 <= j < i ==> st.scene.value[j] == f(old(st.scene.value)[j])
      invariant forall j :: i <= j < |st.scene.value| ==> st.scene.value[j] == old(st.scene.value)[j]
      invariant st.Record() == old(st.Record()).(scene := st.scene)
    {
      var nodes := st.scene.value;
      st.SetScene(Some(nodes[i := f(nodes[i])]));
      i := i + 1;
    }
  }

  /** A toggle over every node of the scene, when there is one. */
  function SceneRecord(r: StateRecord, f: seq<Node> -> seq<Node>): StateRecord {
    if r.scene.Some? then r.(scene := Some(f(r.scene.value))) else r
  }

  function ShadingRecord(r: StateRecord, mode: string): StateRecord {
    SceneRecord(r, (s: seq<Node>) => ShadeAll(s, mode))
  }

  function WireframeRecord(r: StateRecord, enabled: bool): StateRecord {
    SceneRecord(r, (s: seq<Node>) => WireframeAll(s, enabled))
  }

  function LightsRecord(r: StateRecord, visible: bool): StateRecord {
    SceneRecord(r, (s: seq<Node>) => LightVisibilityAll(s, visible))
  }

  function IntensityRecord(r: StateRecord, factor: real): StateRecord {
    SceneRecord(r, (s: seq<Node>) => ScaleAll(s, factor))
  }

  function GridRecord(r: StateRecord, visible: bool): StateRecord {
    if r.grid.Some? then r.(grid := Some(GridHelper(visible))) else r
  }

  /** The shading status after `applyShadingMode`: written only when there is a scene. */
  function ShadingPage(v: PageView, r: StateRecord, mode: string): PageView {
    if r.scene.Some? && HasRef(r.dom, "shadingText") && HasRef(r.dom, "shadingStatus") then
      v.(shadingText := ShadingLabel(mode), shadingStatus := "ON")
    else v
  }

  /** The lighting value after `updateLightingIntensity`: written only when there is a scene. */
  function IntensityPage(v: PageView, r: StateRecord, factor: real): PageView {
    if r.scene.Some? && HasRef(r.dom, "lightingValue") then v.(lightingValue := Text.Fixed1(factor)) else v
  }

  method ApplyShadingMode(st: State, page: Page, mode: string)
    modifies st, page
    ensures st.Record() == ShadingRecord(old(st.Record()), mode)
    ensures page.View() == ShadingPage(old(page.View()), old(st.Record()), mode)
  {
    var scene := st.GetScene();
    if scene.None? {
      return;
    }
    TraverseScene(st, (n: Node) => ShadeNode(n, mode));
    assert st.scene.value == ShadeAll(scene.value, mode);
    UpdateShadingStatus(st.GetDomRefs(), page, mode);
  }

  method ToggleWireframe(st: State, enabled: bool)
    modifies st
    ensures st.Record() == WireframeRecord(old(st.Record()), enabled)
  {
    var scene := st.GetScene();
    if scene.None? {
      return;
    }
    TraverseScene(st, (n: Node) => WireframeNode(n, enabled));
    assert st.scene.value == WireframeAll(scene.value, enabled);
  }

  method ToggleGrid(st: State, visible: bool)
    modifies st
    ensures st.Record() == GridRecord(old(st.Record()), visible)
  {
    var grid := st.GetGrid();
    if grid.Some? {
      st.SetGrid(Some(grid.value.(visible := visible)));
    }
  }

  method ToggleLights(st: State, visible: bool)
    modifies st
    ensures st.Record() == LightsRecord(old(st.Record()), visible)
  {
    var scene := st.GetScene();
    if scene.None? {
      return;
    }
    TraverseScene(st, (n: Node) => LightVisibilityNode(n, visible));
    assert st.scene.value == LightVisibilityAll(scene.value, visible);
  }

  method UpdateLightingIntensity(st: State, page: Page, factor: real)
    modifies st, page
    ensures st.Record() == IntensityRecord(old(st.Record()), factor)
    ensures page.View() == IntensityPage(old(page.View()), old(st.Record()), factor)
  {
    var scene := st.GetScene();
    if scene.None? {
      return;
    }
    TraverseScene(st, (n: Node) => ScaleNode(n, factor));
    assert st.scene.value == ScaleAll(scene.value, factor);
    UpdateLightingDisplay(st.GetDomRefs(), page, factor);
  }

  // ---------------------------------------------------------------------
  // The normals overlay

  /** The scene with the current overlay (if any) taken out. */
  function WithoutHelper(r: StateRecord): seq<Node>
    requires r.scene.Some?
  {
    if r.normalsHelper.Some? then Remove(r.scene.value, Helper(r.normalsHelper.value.target))
    else r.scene.value
  }

  /** `toggleNormals(show)`: the old overlay is removed; when showing, one is
      added for the first mesh with a geometry, if there is such a mesh. */
  function NormalsRecord(r: StateRecord, show: bool): StateRecord {
    if r.scene.None? then r
    else
      var rest := WithoutHelper(r);
      var target := if show then FirstMeshWithGeometry(rest) else None;
      match target
      case None => r.(scene := Some(rest), normalsHelper := None)
      case Some(i) => r.(scene := Some(rest + [Helper(i)]), normalsHelper := Some(HelperRef(i)))
  }

  /** The normals status after `toggleNormals`: whether an overlay now exists. */
  function NormalsPage(v: PageView, r: StateRecord, show: bool): PageView {
    if r.scene.Some? && HasRef(r.dom, "normalsStatus") then
      v.(normalsStatus := NormalsStatusText(NormalsRecord(r, show).normalsHelper.Some?))
    else v
  }

  method ToggleNormals(st: State, page: Page, show: bool)
    modifies st, page
    ensures st.Record() == NormalsRecord(old(st.Record()), show)
    ensures page.View() == NormalsPage(old(page.View()), old(st.Record()), show)
  {
    var scene := st.GetScene();
    if scene.None? {
      return;
    }
    ghost var r0 := st.Record();
    DropNormalsHelper(st);
    if !show {
      UpdateNormalsStatus(st.GetDomRefs(), page, false);
      return;
    }
    ghost var r1 := st.Record();
    assert r1 == r0.(scene := Some(WithoutHelper(r0)), normalsHelper := None);
    var helperCreated := AddNormalsHelper(st);
    UpdateNormalsStatus(st.GetDomRefs(), page, helperCreated);
  }

  /** The removal half of `toggleNormals`; nothing else changes. */
  method DropNormalsHelper(st: State)
    requires st.scene.Some?
    modifies st
    ensures st.Record() == old(st.Record()).(scene := Some(WithoutHelper(old(st.Record()))), normalsHelper := None)
  {
    var scene := st.GetScene();
    var currentHelper := st.GetNormalsHelper();
    if currentHelper.Some? {
      st.SetScene(Some(Remove(scene.value, Helper(currentHelper.value.target))));
      st.SetNormalsHelper(None);
    }
  }

  /** The search half of `toggleNormals`: an overlay for the first mesh with
      a geometry, when there is one; `created` says whether there was. */
  method AddNormalsHelper(st: State) returns (created: bool)
    requires st.scene.Some? && st.normalsHelper.None?
    modifies st
    ensures created == FirstMeshWithGeometry(old(st.scene.value)).Some?
    ensures st.Record() == match FirstMeshWithGeometry(old(st.scene.value))
      case None => old(st.Record())
      case Some(k) => old(st.Record()).(scene := Some(old(st.scene.value) + [Helper(k)]), normalsHelper := Some(HelperRef(k)))
  {
    var nodes := st.scene.value;
    ghost var base := st.Record();
    created := false;
    var i := 0;
    while i < |nodes|
      invariant 0 <= i <= |nodes|
      invariant !created ==> st.Record() == base && forall j :: 0 <= j < i ==> !HasGeometry(nodes[j])
      invariant created ==> FirstMeshWithGeometry(nodes).Some?
      invariant created ==> var k := FirstMeshWithGeometry(nodes).value;
        st.Record() == base.(scene := Some(nodes + [Helper(k)]), normalsHelper := Some(HelperRef(k)))
    {
      if !created && HasGeometry(nodes[i]) {
        st.SetScene(Some(st.scene.value + [Helper(i)]));
        st.SetNormalsHelper(Some(HelperRef(i)));
        created := true;
      }
      i := i + 1;
    }
  }

  /** The overlay bookkeeping stays consistent: after the toggle the scene
      holds at most one overlay, exactly when the state refers to one, and
      the status shows ON exactly when one was created. */
  lemma {:induction false} NormalsKeepConsistent(r: StateRecord, show: bool)
    requires HelperConsistent(r)
    ensures HelperConsistent(NormalsRecord(r, show))
    ensures r.scene.Some? ==> var s := NormalsRecord(r, show);
      HelperCount(s.scene.value) <= 1 &&
      (s.normalsHelper.Some? <==> show && FirstMeshWithGeometry(WithoutHelper(r)).Some?)
  {
    if r.scene.Some? {
      var rest := WithoutHelper(r);
      if r.normalsHelper.Some? {
        RemoveHelperCount(r.scene.value, Helper(r.normalsHelper.value.target));
      } else {
        HelperCountZero(r.scene.value);
      }
      assert HelperCount(rest) == 0;
      HelperCountAppend(rest, [Helper(0)]);
      if show && FirstMeshWithGeometry(rest).Some? {
        var i := FirstMeshWithGeometry(rest).value;
        HelperCountAppend(rest, [Helper(i)]);
        assert (rest + [Helper(i)])[|rest|] == Helper(i);
      }
    }
  }

  /** A new scene that differs from the old one only away from the
      overlays keeps the overlay bookkeeping consistent. */
  lemma ReplaceSceneKeepsConsistent(r: StateRecord, t: seq<Node>)
    requires HelperConsistent(r) && r.scene.Some? && KeepsHelpers(r.scene.value, t)
    ensures HelperConsistent(r.(scene := Some(t)))
  {
    KeepsHelpersCount(r.scene.value, t);
  }

  // ---------------------------------------------------------------------
  // The camera

  /** `setCameraPreset(p)`: the camera moves to `p` and is aimed at the
      origin, through the controls when there are any. */
  function PresetRecord(r: StateRecord, p: Vec3): StateRecord {
    if r.camera.None? then r
    else if r.controls.Some? then
      r.(camera := Some(r.camera.value.(position := p)),
         controls := Some(OrbitControls(Origin, r.controls.value.updates + 1)))
    else r.(camera := Some(r.camera.value.(position := p, lookingAt := Some(Origin))))
  }

  method SetCameraPreset(st: State, p: Vec3)
    modifies st
    ensures st.Record() == PresetRecord(old(st.Record()), p)
  {
    var camera := st.GetCamera();
    var controls := st.GetControls();
    if camera.None? {
      return;
    }
    st.SetCamera(Some(camera.value.(position := p)));
    if controls.Some? {
      st.SetControls(Some(controls.value.(target := Origin, updates := controls.value.updates + 1)));
    } else {
      st.SetCamera(Some(st.camera.value.(lookingAt := Some(Origin))));
    }
  }

  /** The scene's bounding box, by its centre and size. */
  datatype Box = Box(center: Vec3, size: Vec3)

  /** What framing needs from the rendering engine: the scene's bounding box,
      `tan(fov / 2)` for the camera's field of view, and the length of the
      offset from the controls' target to the camera (`length()`). */
  datatype Framing = Framing(box: Box, tanHalfFov: real, offsetLength: real)

  /** The unit vector from the controls' target to the camera (zero when the camera is on the target). */
  function ViewDirection(camera: Camera, controls: OrbitControls, fr: Framing): Vec3 {
    Normalized(Minus(camera.position, controls.target), fr.offsetLength)
  }

  function MaxDim(size: Vec3): real {
    Max(size.x, Max(size.y, size.z))
  }

  /** The distance that fits `maxDim` in the view, never less than 1. */
  function FramingDistance(maxDim: real, tanHalfFov: real): real
    requires tanHalfFov > 0.0
  {
    Max(maxDim / (2.0 * tanHalfFov), 1.0)
  }

  /** Framing a bounding box: the camera is put at the framing distance
      from the box centre and aimed at it (nothing happens without a camera). */
  function FrameOnBox(r: StateRecord, fr: Framing): StateRecord
    requires fr.tanHalfFov > 0.0
  {
    if r.camera.None? then r
    else
      var c := fr.box.center;
      var d := FramingDistance(MaxDim(fr.box.size), fr.tanHalfFov);
      if r.controls.Some? then
        var u := ViewDirection(r.camera.value, r.controls.value, fr);
        r.(camera := Some(r.camera.value.(position := Plus(c, Times(u, d * 1.5)))),
           controls := Some(OrbitControls(c, r.controls.value.updates + 1)))
      else
        r.(camera := Some(r.camera.value.(position := Vec3(c.x, c.y + d, c.z + d), lookingAt := Some(c))))
  }

  /** `resetCameraToScene` without a stored reference pose: the scene's box is framed. */
  function ResetRecord(r: StateRecord, fr: Framing): StateRecord
    requires fr.tanHalfFov > 0.0
  {
    if r.scene.None? then r else FrameOnBox(r, fr)
  }

  method ResetCameraToScene(st: State, fr: Framing)
    requires fr.tanHalfFov > 0.0
    modifies st
    ensures st.Record() == ResetRecord(old(st.Record()), fr)
  {
    var scene := st.GetScene();
    if scene.None? {
      return;
    }
    var camera := st.GetCamera();
    var controls := st.GetControls();
    if camera.None? {
      return;
    }
    var center := fr.box.center;
    var maxDim := Max(fr.box.size.x, Max(fr.box.size.y, fr.box.size.z));
    var distance := maxDim / (2.0 * fr.tanHalfFov);
    distance := Max(distance, 1.0);
    if controls.Some? {
      var direction := ViewDirection(camera.value, controls.value, fr);
      st.SetCamera(Some(camera.value.(position := Plus(center, Times(direction, distance * 1.5)))));
      st.SetControls(Some(controls.value.(target := center, updates := controls.value.updates + 1)));
    } else {
      st.SetCamera(Some(camera.value.(position := Vec3(center.x, center.y + distance, center.z + distance))));
      st.SetCamera(Some(st.camera.value.(lookingAt := Some(center))));
    }
  }

  /** The framing distance is at least 1, exactly 1 for a box too small to
      need more, and otherwise the distance at which `maxDim` fills the view. */
  lemma FramingDistanceBounds(maxDim: real, tanHalfFov: real)
    requires tanHalfFov > 0.0
    ensures FramingDistance(maxDim, tanHalfFov) >= 1.0
    ensures maxDim <= 2.0 * tanHalfFov ==> FramingDistance(maxDim, tanHalfFov) == 1.0
    ensures maxDim >= 2.0 * tanHalfFov ==> FramingDistance(maxDim, tanHalfFov) * (2.0 * tanHalfFov) == maxDim
  {
    var w := 2.0 * tanHalfFov;
    var q := maxDim / w;
    assert q * w == maxDim;
    var y := 1.0 - q;
    var p := w * y;
    assert p == w - maxDim;
    if maxDim <= w {
      assert p >= 0.0;
      assert y >= 0.0;
    }
    if maxDim >= w {
      assert p <= 0.0;
      assert y <= 0.0;
    }
  }

  /** Without orbit controls the camera goes up and back from the box centre
      by the framing distance and is aimed at the centre. */
  lemma FrameWithoutControlsPlacement(r: StateRecord, fr: Framing)
    requires fr.tanHalfFov > 0.0 && r.camera.Some? && r.controls.None?
    ensures var s := FrameOnBox(r, fr);
      var d := FramingDistance(MaxDim(fr.box.size), fr.tanHalfFov);
      var c := fr.box.center;
      s.camera.value.position == Vec3(c.x, c.y + d, c.z + d) && s.camera.value.lookingAt == Some(c) &&
      s.controls.None? && s.scene == r.scene
  {
  }

  /** With orbit controls the camera keeps its direction from the target:
      its new offset from the box centre is the old offset from the target
      scaled to one and a half framing distances, and it orbits the centre. */
  lemma FrameWithControlsDistance(r: StateRecord, fr: Framing)
    requires fr.tanHalfFov > 0.0 && r.camera.Some? && r.controls.Some?
    requires var o := Minus(r.camera.value.position, r.controls.value.target);
      fr.offsetLength > 0.0 && fr.offsetLength * fr.offsetLength == NormSq(o)
    ensures var s := FrameOnBox(r, fr);
      var d := FramingDistance(MaxDim(fr.box.size), fr.tanHalfFov);
      var o := Minus(r.camera.value.position, r.controls.value.target);
      s.controls.value.target == fr.box.center &&
      Minus(s.camera.value.position, fr.box.center) == Times(o, 1.5 * d / fr.offsetLength) &&
      NormSq(Minus(s.camera.value.position, fr.box.center)) == (1.5 * d) * (1.5 * d)
  {
    var d := FramingDistance(MaxDim(fr.box.size), fr.tanHalfFov);
    var c := fr.box.center;
    var o := Minus(r.camera.value.position, r.controls.value.target);
    var len := fr.offsetLength;
    var k := d * 1.5;
    var u := Times(o, 1.0 / len);
    assert Minus(Plus(c, Times(u, k)), c) == Times(u, k);
    ScaleTwice(o, 1.0 / len, k);
    ScaledToLength(o, len, k);
  }

  /** An offset of length `len` scaled by `k / len` has length `k`. */
  lemma ScaledToLength(o: Vec3, len: real, k: real)
    requires len > 0.0 && len * len == NormSq(o)
    ensures (1.0 / len) * k == k / len
    ensures NormSq(Times(o, k / len)) == k * k
  {
    var m := k / len;
    NormSqTimes(o, m);
    assert m * len == k;
    assert m * m * (len * len) == (m * len) * (m * len);
  }

  lemma NormSqTimes(a: Vec3, m: real)
    ensures NormSq(Times(a, m)) == m * m * NormSq(a)
  {
    assert (a.x * m) * (a.x * m) == m * m * (a.x * a.x);
    assert (a.y * m) * (a.y * m) == m * m * (a.y * a.y);
    assert (a.z * m) * (a.z * m) == m * m * (a.z * a.z);
  }

  lemma ScaleTwice(a: Vec3, j: real, k: real)
    ensures Times(Times(a, j), k) == Times(a, j * k)
  {
    assert a.x * j * k == a.x * (j * k);
    assert a.y * j * k == a.y * (j * k);
    assert a.z * j * k == a.z * (j * k);
  }

  /** A camera already on the controls' target has no direction to keep:
      it is moved onto the box centre. */
  lemma FrameFromTargetLandsOnCenter(r: StateRecord, fr: Framing)
    requires fr.tanHalfFov > 0.0 && r.camera.Some? && r.controls.Some?
    requires r.camera.value.position == r.controls.value.target
    ensures FrameOnBox(r, fr).camera.value.position == fr.box.center
  {
    var o := Minus(r.camera.value.position, r.controls.value.target);
    assert o == Origin;
  }
}
