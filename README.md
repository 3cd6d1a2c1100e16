# Blender web viewer: a verified model of the viewer runtime and the add-on's decisions

This project models the core of the Blender web viewer. The viewer is a
Three.js page that shows a scene exported from Blender. The Blender
add-on exports that scene, serves the page and builds its own output
folder. The model covers:

- the viewer's shared state record and its setters;
- animation playback (play, pause, stop, seek, loading the clips, and the
  per-frame tick);
- the display toggles over the scene graph: shading, wireframe, normals
  overlay, grid, lights and light intensity;
- the camera presets and the framing of the scene's bounding box;
- start-up of the viewer: the light rig, the frame loop, the scene
  descriptor, the model loader's callbacks, and the order of `setupViewer`;
- the control panel, modelled as a dispatcher from inputs to commands;
- the text the page shows: times, loading progress, scene and model
  statistics, and statuses;
- the build script's choice of output directory;
- the add-on's preference sanitisers and update hooks, the shortcut
  label, the keymap bookkeeping, the preview server's flags and the
  save-preferences operator.

Code that changes state in place is modelled as classes with `modifies`
clauses:

- the viewer's state record is `ViewerState.State`;
- the page's elements are `Ui.Page`;
- the add-on's preferences are `Addon.Preferences`;
- the add-on's keymap list is `Addon.Keymaps`;
- the preview server is `Addon.WebPreviewServer`.

Every command is a method. Each method is proved equal to a function of
the state before it, and lemmas prove the properties the code promises
about those functions. Pure code is modelled as functions and lemmas:
string formatting, path resolution and the sanitisers.

Modules and files:

| file | module | original |
|---|---|---|
| common.dfy | Common | shared helpers: `Option`, 3-vectors, JavaScript's `%` on numbers |
| text.dfy | Text | number to text and back; ASCII case |
| scene_graph.dfy | SceneGraph | the scene's nodes and the per-node effects of the toggles |
| viewer_state.dfy | ViewerState | web_vite/src/viewer/state.js |
| ui.dfy | Ui | web_vite/src/viewer/ui.js |
| animation.dfy | Animation | web_vite/src/viewer/animation.js |
| actions.dfy | Actions | web_vite/src/viewer/actions.js |
| scene_setup.dfy | SceneSetup | web_vite/src/viewer/scene.js |
| viewer_controls.dfy | ViewerControls | web_vite/src/viewer/controls.js |
| addon_path.dfy | AddonPath | web_vite/scripts/addon-path.mjs |
| addon.dfy | Addon | __init__.py |

Abstractions used throughout:

- Times, intensities and positions are real numbers. Floating-point
  rounding is not modelled.
- The Three.js animation mixer is a clock: setting its time replaces the
  clock, and updating it adds to the clock.
- An animation action is a record of its clip, `paused`, `running`,
  `time`, loop mode and `clampWhenFinished`.
- Results of the rendering engine and the browser become parameters:
  - the bounding box;
  - `tan(fov / 2)`;
  - the length of the offset from the controls' target to the camera (the
    direction itself is that offset divided by its length, as
    `normalize()` does);
  - the clock's frame delta;
  - the fetched descriptor;
  - the loader's outcome;
  - whether OrbitControls could be created.
- A DOM reference is present or absent. Each write to an element happens
  only when its reference is present.

## Model

| member | source | states |
|---|---|---|
| Common.JsRemRange | web_vite/src/viewer/animation.js:22 | JavaScript's `%` with a positive divisor is `x - d*floor(x/d)`; it lies in [0, d) |
| Text.DigitChar | web_vite/src/viewer/ui.js:6 | the digit character for d is a digit, and reads back as d |
| Text.DigitValue | __init__.py:85-92 | a digit character's value is below 10 |
| Text.NatToString | web_vite/src/viewer/ui.js:6 | a number's decimal text is non-empty, all digits, and has no leading zero |
| Text.DigitsValueOfNatToString | web_vite/src/viewer/ui.js:6 | a number's decimal text reads back as that number |
| Text.ParseInt | __init__.py:86-88 | `int(value)`: it succeeds only on non-empty text |
| Text.ParseIntOfIntToString | __init__.py:85-92 | an integer's text (with its sign) reads back as the same integer |
| Text.ParseNegative | __init__.py:85-92 | a negative integer's text, '-' then its digits, reads back as that integer |
| Text.ParseNonNegative | __init__.py:85-92 | a non-negative integer's text reads back as that integer |
| Text.PadStart2 | web_vite/src/viewer/ui.js:6 | `padStart(2, '0')`: text already two long is kept; shorter text is left-filled with '0' to length 2 |
| Text.Fixed1RoundTrip | web_vite/src/viewer/ui.js:133-138 | `toFixed(1)` reads back as the value rounded to one decimal, within 0.05 of it |
| Text.LowerChar | __init__.py:81 | `lower()` on ASCII: never upper case; letters map to lower case; other characters are untouched |
| Text.UpperChar | __init__.py:237 | `upper()` on ASCII: never lower case; letters map to upper case; other characters are untouched |
| Text.CaseRoundTrip | __init__.py:237 | raising then lowering a lower-case letter gives it back, and the other way round |
| SceneGraph.FirstMeshWithGeometry | web_vite/src/viewer/actions.js:70-79 | the index found is of a mesh with geometry and every node before it has none; no index means no such mesh exists |
| SceneGraph.Remove | web_vite/src/viewer/actions.js:59-63 | removing a node leaves exactly the other nodes |
| SceneGraph.HelperCountAppend | web_vite/src/viewer/actions.js:55-82 | the number of normals overlays in a concatenation is the sum of the parts |
| SceneGraph.HelperCountZero | web_vite/src/viewer/actions.js:55-82 | no overlay is counted exactly when no node is an overlay |
| SceneGraph.RemoveHelperCount | web_vite/src/viewer/actions.js:59-63 | removing an overlay takes away every copy of it from the count |
| SceneGraph.ShadingWireframeCommute | web_vite/src/viewer/actions.js:41-53 | shading and wireframe changes commute on every scene |
| SceneGraph.TogglesLastWriteWins | web_vite/src/viewer/actions.js:41-111 | applying a shading mode, a wireframe flag or a light visibility twice keeps only the last value |
| SceneGraph.LightVisibilityScope | web_vite/src/viewer/actions.js:102-111 | the lights toggle changes the visibility of non-ambient lights only, and leaves every other node as it was |
| SceneGraph.MaterialTogglesScope | web_vite/src/viewer/actions.js:41-53 | shading and wireframe change only meshes that have a material, and only the fields they set |
| SceneGraph.BaseIntensityStable | web_vite/src/viewer/actions.js:113-126 | scaling never changes a light's original intensity |
| SceneGraph.ScaleIdempotent | web_vite/src/viewer/actions.js:113-126 | repeating a factor changes nothing more |
| SceneGraph.ScaleSeriesLastFactorWins | web_vite/src/viewer/actions.js:113-126 | after any series of intensity changes a light's intensity is its first original times the last factor alone, and it stores that original |
| SceneGraph.KeepsHelpersCount | web_vite/src/viewer/actions.js:41-126 | a change to the scene away from the overlays keeps their number and which overlays there are |
| SceneGraph.ScaleSeriesThenOneRestores | web_vite/src/viewer/actions.js:113-126 | after any series of factors every light keeps its original, and a later factor f sets it to original × f, so 1 restores it |
| SceneGraph.VisibilityScaleCommute | web_vite/src/viewer/actions.js:102-126 | the lights toggle and the intensity slider commute |
| ViewerState.Initial | web_vite/src/viewer/state.js:1-47 | the initial record: every DOM reference is null; nothing has been built; no actions; duration 0; not playing |
| ViewerState.MergeDomRefs | web_vite/src/viewer/state.js:49-51 | the given references overwrite and every other reference keeps its value |
| ViewerState.DomRefsLastWriteWins | web_vite/src/viewer/state.js:49-53 | after one merge into the initial record, a reference is set exactly when the merged references set it |
| ViewerState.State.constructor | web_vite/src/viewer/state.js:1-47 | the module-level record starts as the initial record |
| ViewerState.State.SetDomRefs | web_vite/src/viewer/state.js:49-53 | only `dom` changes, to the merge; `getDomRefs` returns it |
| ViewerState.State.SetScene | web_vite/src/viewer/state.js:55-59 | only `scene` changes; its getter returns the value set |
| ViewerState.State.SetCamera | web_vite/src/viewer/state.js:61-65 | only `camera` changes; its getter returns the value set |
| ViewerState.State.SetRenderer | web_vite/src/viewer/state.js:67-71 | only `renderer` changes; its getter returns the value set |
| ViewerState.State.SetControls | web_vite/src/viewer/state.js:73-77 | only `controls` changes; its getter returns the value set |
| ViewerState.State.SetGrid | web_vite/src/viewer/state.js:79-83 | only `grid` changes; its getter returns the value set |
| ViewerState.State.SetMixer | web_vite/src/viewer/state.js:85-89 | only `mixer` changes; its getter returns the value set |
| ViewerState.State.SetClock | web_vite/src/viewer/state.js:91-95 | only `clock` changes; its getter returns the value set |
| ViewerState.State.SetAnimationActions | web_vite/src/viewer/state.js:97-101 | only `animationActions` changes; its getter returns the value set |
| ViewerState.State.SetAnimationDuration | web_vite/src/viewer/state.js:103-107 | only `animationDuration` changes; its getter returns the value set |
| ViewerState.State.SetIsPlaying | web_vite/src/viewer/state.js:109-113 | only `isPlaying` changes; its getter returns the value set |
| ViewerState.State.SetNormalsHelper | web_vite/src/viewer/state.js:115-119 | only `normalsHelper` changes; its getter returns the value set |
| ViewerState.State.SetModelRoot | web_vite/src/viewer/state.js:121-125 | only `modelRoot` changes; its getter returns the value set |
| Ui.FormatTimeFields | web_vite/src/viewer/ui.js:3-7 | for a time that is not negative: whole minutes, a colon, then the whole seconds as exactly two digits, below 60 |
| Ui.MinutesAndSeconds | web_vite/src/viewer/ui.js:4-5 | for a time that is not negative, `floor(value / 60)` and `floor(value % 60)` are the whole seconds divided by 60 and their remainder |
| Ui.TwoDigitSeconds | web_vite/src/viewer/ui.js:6 | a seconds count below 60, padded, is exactly two digits |
| Ui.TimeDisplayCases | web_vite/src/viewer/ui.js:104-114 | "0:00 / 0:00" when the duration is not positive, else the time and the duration formatted |
| Ui.LoadingTextShowsPercent | web_vite/src/viewer/ui.js:23-34 | below 100 the text is "Loading: n%", and n reads back from it |
| Ui.SceneStatsShowsCount | web_vite/src/viewer/ui.js:36-47 | "Objects: n" carries the count; '-' appears exactly when the count is missing |
| Ui.NormalsStatusText | web_vite/src/viewer/ui.js:125-131 | the normals status is "ON" exactly when the overlay is on |
| Ui.StatsAppend | web_vite/src/viewer/ui.js:57-71 | the vertex and index totals and the material set split over concatenation |
| Ui.MaterialCountBound | web_vite/src/viewer/ui.js:57-71 | there are no more distinct materials than nodes |
| Ui.StatsStep | web_vite/src/viewer/ui.js:58-70 | one more node adds exactly its position count, its index count and its material |
| Ui.FloorOfThird | web_vite/src/viewer/ui.js:63-74 | summing `count / 3` and flooring equals integer division of the summed counts |
| Ui.ComputeModelStats | web_vite/src/viewer/ui.js:53-71 | the traverse loop: vertices are the summed position counts of meshes with geometry; the face sum is the summed index counts divided by 3, unrounded; materials are the distinct material ids |
| Ui.CountText | web_vite/src/viewer/ui.js:73-75 | a statistic shows '-' exactly when it is zero |
| Ui.FacesText | web_vite/src/viewer/ui.js:74 | the faces statistic shows '-' exactly when the unrounded sum is zero |
| Ui.FacesTextOfTotal | web_vite/src/viewer/ui.js:64-74 | for an index total, '-' only when there are no indices, otherwise the total's integer third; a total of 1 or 2 shows "0" |
| Ui.Page.constructor | web_vite/src/viewer/ui.js:140-187 | a page holds the given element contents |
| Ui.ShowLoadingOverlay | web_vite/src/viewer/ui.js:9-14 | the overlay's display becomes "flex" when it exists; nothing else changes |
| Ui.HideLoadingOverlay | web_vite/src/viewer/ui.js:16-21 | the overlay's display becomes "none" when it exists; nothing else changes |
| Ui.SetLoadingProgress | web_vite/src/viewer/ui.js:23-34 | only the loading text changes, to the progress text |
| Ui.UpdateSceneInfo | web_vite/src/viewer/ui.js:36-47 | title and statistics change together, only when both elements exist |
| Ui.UpdateModelInfo | web_vite/src/viewer/ui.js:49-76 | the three statistics are written together from the model's nodes (none for a missing scene), only when all three elements exist |
| Ui.WriteModelStats | web_vite/src/viewer/ui.js:73-75 | the three statistics take the given texts and nothing else changes |
| Ui.ShowAnimationControls | web_vite/src/viewer/scene.js:275-283 | the animation controls' display takes the given value when the element exists; nothing else changes |
| Ui.EmptyAnimationSlider | web_vite/src/viewer/scene.js:284-287 | the slider's maximum and value become 0 when the slider exists; nothing else changes |
| Ui.UpdateAnimationTimeDisplay | web_vite/src/viewer/ui.js:104-114 | only the time display changes, to the time display text |
| Ui.SetAnimationSliderValue | web_vite/src/viewer/actions.js:23 | only the animation slider's value changes, when the slider exists |
| Ui.UpdateShadingStatus | web_vite/src/viewer/ui.js:116-123 | with both elements present, the mode's label is shown and the status reads ON; nothing else changes |
| Ui.UpdateNormalsStatus | web_vite/src/viewer/ui.js:125-131 | only the normals status changes |
| Ui.UpdateLightingDisplay | web_vite/src/viewer/ui.js:133-138 | only the lighting value changes, to the value with one decimal |
| Ui.ShowErrorMessage | web_vite/src/viewer/ui.js:86-102 | one error box with the message is added to the viewer, when the viewer exists |
| Ui.InitializeUI | web_vite/src/viewer/ui.js:140-187 | the references are merged into the state; the shading, normals and lighting displays are initialised |
| Ui.InitUIDefaults | web_vite/src/viewer/ui.js:177-182 | after initialisation the normals status is OFF; the shading toggle holds a non-empty mode, "smooth" by default |
| Animation.Tick | web_vite/src/viewer/animation.js:9-28 | the state and page after a step equal the step functions of the state before it |
| Animation.TickInactiveIsNoOp | web_vite/src/viewer/animation.js:10-18 | without a mixer, when not playing, or with no positive duration, nothing changes |
| Animation.TickAdvancesOnlyTheClock | web_vite/src/viewer/animation.js:20 | an active step adds exactly `dt` to the mixer's clock and changes nothing else |
| Animation.TickDisplayInClip | web_vite/src/viewer/animation.js:22-28 | the shown time lies in [0, duration) when the clock is not negative |
| Animation.TickSeriesKeepsPlaying | web_vite/src/viewer/animation.js:9-28 | any number of steps keeps playback active; the clock is the start plus the sum of the steps; nothing else changes |
| Animation.WrapsPastTheEnd | web_vite/src/viewer/animation.js:22 | past the end, within one more clip length, the shown time wraps to `time - duration` |
| Actions.UpdateActions | web_vite/src/viewer/actions.js:29-39 | the forEach loop: each action is replaced by its update and nothing else changes |
| Actions.SetAnimationLoopMode | web_vite/src/viewer/actions.js:29-39 | every action gets the mode; `clampWhenFinished` is set exactly for once |
| Actions.PlayAnimations | web_vite/src/viewer/actions.js:196-208 | the state becomes the play function of the state before it |
| Actions.PauseAnimations | web_vite/src/viewer/actions.js:210-220 | the state becomes the pause function of the state before it |
| Actions.StopAnimations | web_vite/src/viewer/actions.js:222-233 | state and time display become the stop functions of the state before it |
| Actions.SeekAnimation | web_vite/src/viewer/actions.js:235-272 | state, slider and time display become the seek functions of the state before it |
| Actions.PoseActions | web_vite/src/viewer/actions.js:244-250 | every action is set to once, unpaused, scheduled and at the target, and nothing else changes |
| Actions.ShowSeekTime | web_vite/src/viewer/actions.js:255-256 | the slider and the time display show the target, each when its element exists |
| Actions.ResumeMode | web_vite/src/viewer/actions.js:258-269 | a paused viewer's actions are held paused at the target; a playing viewer's are back in repeat and unpaused; nothing else changes |
| Actions.ClipActions | web_vite/src/viewer/actions.js:277-279 | the loop that builds the actions gives one fresh action per clip |
| Actions.InitializeAnimationPage | web_vite/src/viewer/actions.js:274-295 | slider bounds, slider value and time display are set for the clip's duration |
| Actions.InitializeAnimations | web_vite/src/viewer/actions.js:274-295 | state and page become the initialisation functions of the state before it |
| Actions.ClampSeekRange | web_vite/src/viewer/actions.js:236-241 | the seek target is at least 0, and at most the duration when that is positive; a target in range is kept |
| Actions.SeekKeepsMode | web_vite/src/viewer/actions.js:242-271 | seeking keeps `isPlaying`: a playing viewer's actions end unpaused in repeat; a paused viewer's end paused in once at the target; the mixer is at target + 1e-6 |
| Actions.SeekThenPlayResumes | web_vite/src/viewer/actions.js:196-272 | play after a seek resumes every action from the target, unpaused, in repeat |
| Actions.PlaybackGuards | web_vite/src/viewer/actions.js:196-241 | without a mixer or actions, play, stop and seek change nothing; pause needs only actions, and then pauses them in once |
| Actions.PlaybackIdempotent | web_vite/src/viewer/actions.js:196-233 | play, pause and stop are each idempotent |
| Actions.StopRewinds | web_vite/src/viewer/actions.js:222-233 | stop leaves every action unscheduled at 0 in once, the mixer at 0, and the viewer not playing |
| Actions.PlaybackConsistentKept | web_vite/src/viewer/actions.js:196-295 | every playback command and loading the clips keep "playing implies a mixer and actions" |
| Actions.InitPlaysFirstClip | web_vite/src/viewer/actions.js:274-295 | loading clips makes one action per clip in repeat at 0, runs only the first, records the duration, plays, and stores the mixer |
| Actions.PauseThenSeekPastEnd | web_vite/src/viewer/actions.js:196-272 | worked example with a 10 s clip: after play, 4 s, pause and a seek to 12, the seek lands at 10, stays paused, and shows "0:10 / 0:10" |
| Actions.TraverseScene | web_vite/src/viewer/actions.js:41-126 | the scene traverse: each node is replaced by its update and nothing else changes |
| Actions.ApplyShadingMode | web_vite/src/viewer/actions.js:41-53 | state and shading status become the shading functions of the state before it |
| Actions.ToggleWireframe | web_vite/src/viewer/actions.js:84-93 | the state becomes the wireframe function of the state before it |
| Actions.ToggleGrid | web_vite/src/viewer/actions.js:95-100 | only the grid's visibility changes |
| Actions.ToggleLights | web_vite/src/viewer/actions.js:102-111 | the state becomes the light-visibility function of the state before it |
| Actions.UpdateLightingIntensity | web_vite/src/viewer/actions.js:113-126 | state and lighting display become the scaling functions of the state before it |
| Actions.ToggleNormals | web_vite/src/viewer/actions.js:55-82 | state and normals status become the overlay functions of the state before it |
| Actions.DropNormalsHelper | web_vite/src/viewer/actions.js:59-63 | the existing overlay, if any, leaves the scene and the state no longer refers to one; nothing else changes |
| Actions.AddNormalsHelper | web_vite/src/viewer/actions.js:70-79 | the traverse loop: an overlay is added for the first mesh with a geometry exactly when there is one, and `created` says so |
| Actions.NormalsKeepConsistent | web_vite/src/viewer/actions.js:55-82 | at most one overlay; it exists exactly when the state refers to it; one exists exactly when show is requested and a mesh with geometry exists |
| Actions.ReplaceSceneKeepsConsistent | web_vite/src/viewer/actions.js:41-126 | a scene changed only away from the overlays keeps the overlay bookkeeping consistent |
| Actions.SetCameraPreset | web_vite/src/viewer/actions.js:182-194 | the camera moves to the preset and is aimed at the origin, through the controls when there are any |
| Actions.ResetCameraToScene | web_vite/src/viewer/actions.js:128-180 | without a scene or camera nothing changes; otherwise the scene's box is framed |
| Actions.FramingDistanceBounds | web_vite/src/viewer/actions.js:166-169 | the framing distance is at least 1, exactly 1 for a small box, and otherwise the distance at which the box fills the view |
| Actions.FrameWithoutControlsPlacement | web_vite/src/viewer/actions.js:176-179 | without controls the camera goes to (cx, cy+d, cz+d) and is aimed at the centre |
| Actions.FrameWithControlsDistance | web_vite/src/viewer/actions.js:171-175 | with controls the target becomes the centre; the camera's new offset from the centre is its old offset from the target scaled by 1.5·d/len, so it keeps its direction and is 1.5·d away |
| Actions.ScaledToLength | web_vite/src/viewer/actions.js:172-173 | an offset of length len scaled by k/len has length k |
| Actions.FrameFromTargetLandsOnCenter | web_vite/src/viewer/actions.js:172-173 | a camera sitting on the target normalises to the zero vector and is moved onto the box centre |
| ViewerControls.Handle | web_vite/src/viewer/controls.js:42-148 | each handler runs its command only when the elements it needs were found; state and page become the command functions |
| ViewerControls.CommandKeepsHelperConsistent | web_vite/src/viewer/controls.js:42-148 | every input keeps the overlay bookkeeping consistent: at most one overlay, there exactly when the state refers to it |
| ViewerControls.HandleDisplay | web_vite/src/viewer/controls.js:42-83 | the shading, normals, wireframe, grid, lights and lighting handlers run their commands |
| ViewerControls.HandleCamera | web_vite/src/viewer/controls.js:85-107 | the reset and preset buttons run their camera commands |
| ViewerControls.HandlePlayback | web_vite/src/viewer/controls.js:115-148 | the play, pause, stop, slider and panel handlers run their commands |
| ViewerControls.RegisterControlHandlers | web_vite/src/viewer/controls.js:109-113 | only the animation controls' display changes, as the announcement says |
| ViewerControls.ShadingCycle | web_vite/src/viewer/controls.js:43-48 | the toggle always yields flat or smooth; it alternates; flat comes exactly from smooth, an empty mode or none |
| ViewerControls.NormalsClickFlips | web_vite/src/viewer/controls.js:52-56 | ON becomes OFF; OFF becomes ON whenever a mesh with geometry exists |
| ViewerControls.PresetsAimAtOrigin | web_vite/src/viewer/controls.js:91-107 | top (0,10,0), front (0,0,10), side (10,0,0), each aimed at the origin |
| ViewerControls.RegisteredDisplayIff | web_vite/src/viewer/controls.js:109-113 | the animation controls are visible exactly when the scene has animations |
| ViewerControls.LightingInputWrites | web_vite/src/viewer/controls.js:77-83 | the slider's value is shown to one decimal and every light is scaled by it |
| ViewerControls.PanelToggleInvolution | web_vite/src/viewer/controls.js:140-148 | one click flips 'is-open'; two clicks restore the page |
| SceneSetup.CreateLighting | web_vite/src/viewer/scene.js:60-100 | the rig is added to the scene, with the originals captured |
| SceneSetup.RigOriginals | web_vite/src/viewer/scene.js:60-100 | the scene keeps its order; only its directional lights gain a stored original; each rig light stores its own intensity |
| SceneSetup.InitialRig | web_vite/src/viewer/scene.js:60-100 | one ambient light of 1.2 and directional lights of 1.5, 0.8, 0.6, 0.4 and 0.4, each storing its intensity |
| SceneSetup.AnimateFrame | web_vite/src/viewer/scene.js:309-327 | state and page after a frame equal the frame functions |
| SceneSetup.FrameOrder | web_vite/src/viewer/scene.js:309-327 | the controls update when present; no clock means no advance; the render shows the clock after the tick; a frame renders exactly when scene, camera and renderer exist |
| SceneSetup.InitScene | web_vite/src/viewer/scene.js:102-140 | without the viewer element it fails and changes nothing; otherwise it stores the built objects and draws the first frame |
| SceneSetup.InitialHelperConsistent | web_vite/src/viewer/scene.js:102-140 | the initial state and the scene `initScene` builds have consistent overlay bookkeeping: no overlay and no reference to one |
| SceneSetup.LoadSceneInfo | web_vite/src/viewer/scene.js:156-182 | returns the descriptor; shows its info; hides the controls when it has no animations; shows them when the fetch failed |
| SceneSetup.LoadModelStart | web_vite/src/viewer/scene.js:221-222 | the overlay is shown with "Loading..." |
| SceneSetup.OnProgress | web_vite/src/viewer/scene.js:293-298 | only a non-zero total writes the percentage |
| SceneSetup.ProgressPercentRange | web_vite/src/viewer/scene.js:293-298 | a partial download reads 0 to 99; a full one reads as "Processing..." |
| SceneSetup.OnError | web_vite/src/viewer/scene.js:299-304 | the overlay is hidden and the load error is shown in the viewer |
| SceneSetup.CastShadows | web_vite/src/viewer/scene.js:257-262 | the traverse makes every mesh cast and receive shadows |
| SceneSetup.CenterCameraOnModel | web_vite/src/viewer/scene.js:191-218 | the model's box is framed |
| SceneSetup.AddModel | web_vite/src/viewer/scene.js:264-267 | the model is added, recorded as the root, its statistics shown, and the camera centred |
| SceneSetup.WithClips | web_vite/src/viewer/scene.js:271-282 | clips start playback with the first clip's duration on a fresh mixer, and show the controls |
| SceneSetup.NoClips | web_vite/src/viewer/scene.js:283-288 | no clips: not playing; time 0/0; slider 0; controls hidden |
| SceneSetup.ApplyClips | web_vite/src/viewer/scene.js:271-288 | the two clip branches, as functions of the state before them |
| SceneSetup.OnLoad | web_vite/src/viewer/scene.js:249-292 | the text reads "Processing..."; without a scene it then fails; otherwise the state and page become the load functions |
| SceneSetup.LoadedDisplayAndPlaying | web_vite/src/viewer/scene.js:271-288 | after a load the controls' display is the clip-dependent one, the viewer plays exactly when there are clips, and the scene stays built |
| SceneSetup.LoadWithoutClips | web_vite/src/viewer/scene.js:283-290 | with no clips: not playing, actions kept, "0:00 / 0:00", slider 0, controls hidden, overlay hidden |
| SceneSetup.LoadWithClips | web_vite/src/viewer/scene.js:271-282 | with clips: playing the first clip's duration from 0; one action per clip; the first runs; the slider spans it; the controls show |
| SceneSetup.LoadedMeshesCastShadows | web_vite/src/viewer/scene.js:257-267 | the model follows the scene's nodes in order, and every mesh of it casts and receives shadows |
| SceneSetup.LoadedHelperConsistent | web_vite/src/viewer/scene.js:257-267 | adding a loaded model that has no overlay of its own keeps the overlay bookkeeping consistent |
| SceneSetup.FrameKeepsSetup | web_vite/src/viewer/scene.js:309-327 | a frame leaves the scene, the DOM references and the controls' display alone |
| SceneSetup.StartViewer | web_vite/src/viewer/scene.js:329-331 | the UI is initialised, then the scene is built, or fails without the viewer element |
| SceneSetup.LoadContent | web_vite/src/viewer/scene.js:333-342 | descriptor, handlers, then model; the display is the composed result; a loaded model plays exactly when it has clips |
| SceneSetup.SetupViewer | web_vite/src/viewer/scene.js:329-342 | without the viewer element it fails with the scene unbuilt; otherwise the display and playing follow the stated order |
| SceneSetup.SetupDisplayFollowsModel | web_vite/src/viewer/scene.js:165-181 | the controls end shown exactly when a loaded model has clips, or, when the load failed, exactly when the descriptor announced animations |
| SceneSetup.DescriptorFailureHidesControls | web_vite/src/viewer/scene.js:172-181 | a failed fetch shows the controls, but the registration after it hides them again unless clips load |
| AddonPath.SplitPieces | web_vite/scripts/addon-path.mjs:5 | no segment of a cut path holds a separator |
| AddonPath.SplitJoin | web_vite/scripts/addon-path.mjs:5 | names joined with the separator cut back into the same names |
| AddonPath.CollapseWithoutParent | web_vite/scripts/addon-path.mjs:5 | segments without `..` never drop a name already resolved: they only add names |
| AddonPath.CollapseKeepsNames | web_vite/scripts/addon-path.mjs:5 | normalisation leaves only real names: no empty, `.` or `..` segment survives |
| AddonPath.ResolveValid | web_vite/scripts/addon-path.mjs:5 | resolving any argument from a resolved path gives a root and names again |
| AddonPath.ResolveRendered | web_vite/scripts/addon-path.mjs:5 | resolving the text of a resolved path gives the same path back (resolve is idempotent on its results) |
| AddonPath.ResolveNames | web_vite/scripts/addon-path.mjs:53-62 | plain names given as further arguments are appended below the path resolved so far |
| AddonPath.ResolveBelow | web_vite/scripts/addon-path.mjs:5 | text after an absolute path and a separator is resolved below that path, `..` and `.` included |
| AddonPath.NormalizeChar | web_vite/scripts/addon-path.mjs:5 | a replaced character is never a backslash or an ASCII capital, and is a slash exactly when it was a slash of either kind |
| AddonPath.SlashesAndCase | web_vite/scripts/addon-path.mjs:5 | the replacements act character by character and keep the length |
| AddonPath.SlashesAndCaseEqualIff | web_vite/scripts/addon-path.mjs:5 | two texts compare equal after the replacements exactly when they agree position by position up to ASCII case and slash kind |
| AddonPath.BelowNamesNotOutside | web_vite/scripts/addon-path.mjs:7-14 | a target resolving to the root's names and more is not outside a root below the filesystem root |
| AddonPath.ShorterIsOutside | web_vite/scripts/addon-path.mjs:7-14 | a target whose resolved text is shorter than the root's is outside |
| AddonPath.RootIsNotOutside | web_vite/scripts/addon-path.mjs:10-12 | the root, `root/.` and `root/name/..` are not outside the root |
| AddonPath.BelowRootIsNotOutside | web_vite/scripts/addon-path.mjs:13 | root, separator, then anything without a `..` segment: not outside a root below the filesystem root |
| AddonPath.EscapeIsOutside | web_vite/scripts/addon-path.mjs:13 | `root/..` is outside the root |
| AddonPath.ParentIsOutside | web_vite/scripts/addon-path.mjs:7-14 | the directory above the root is outside it |
| AddonPath.LongerNameIsOutside | web_vite/scripts/addon-path.mjs:13 | a resolved root with more characters added to its last name is outside: names compare whole |
| AddonPath.SiblingExample | web_vite/scripts/addon-path.mjs:13 | `/a/bc` is outside `/a/b` |
| AddonPath.FilesystemRootExample | web_vite/scripts/addon-path.mjs:13 | with `/` as the root even `/dist` is outside, because the prefix tested is `//` |
| AddonPath.FallbackIsDistBelowRoot | web_vite/scripts/addon-path.mjs:17 | the fallback is the resolved root with the name `dist` below it |
| AddonPath.FallbackFlagWins | web_vite/scripts/addon-path.mjs:19-24 | the flag "true" wins over every other input: the root's `dist`, not an add-on path |
| AddonPath.CustomDirUsed | web_vite/scripts/addon-path.mjs:26-36 | a custom directory is used verbatim when absolute and resolved below the root when relative; it is an add-on path exactly when its resolution lies outside the root |
| AddonPath.RelativeCustomDirIsInside | web_vite/scripts/addon-path.mjs:26-36 | a relative custom directory without a `..` segment is not an add-on path |
| AddonPath.ParentRelativeCustomDirExample | web_vite/scripts/addon-path.mjs:26-36 | `../x` from the root `/p/q` is `/p/x`, an add-on path |
| AddonPath.UnresolvedAbsoluteCustomDirExample | web_vite/scripts/addon-path.mjs:28-34 | the absolute `/p/../q` is kept as written, yet compared as `/q`, so it is an add-on path of the root `/p` |
| AddonPath.PlatformFallback | web_vite/scripts/addon-path.mjs:38-51 | not Windows, or no APPDATA: the root's `dist`, not an add-on path |
| AddonPath.WindowsAddonFolder | web_vite/scripts/addon-path.mjs:53-67 | Windows with APPDATA: APPDATA resolved, with Blender Foundation, Blender, 5.0, extensions, user_default, blendxweb2, web below it; an add-on path |
| AddonPath.WindowsAddonFolderText | web_vite/scripts/addon-path.mjs:53-67 | when APPDATA is already a resolved path, the folder is its text followed by each of those names after a backslash |
| AddonPath.NotAddonPathStaysInside | web_vite/scripts/addon-path.mjs:16-67 | whatever is not an add-on path lies inside a project root below the filesystem root |
| Addon.SanitizeShortcutKey | __init__.py:78-82 | always one lower-case letter: the first character lowered when it is a letter, else "u" |
| Addon.ShortcutKeyIdempotent | __init__.py:99-103 | sanitising a sanitised key changes nothing |
| Addon.ShortcutKeyFixedPoints | __init__.py:99-103 | a key is left as it is exactly when it is one lower-case letter |
| Addon.ClampPort | __init__.py:89-92 | the port is clamped into [1, 65535], and kept when already inside |
| Addon.SanitizeServerPort | __init__.py:85-92 | always the text of a port in [1, 65535]; "3000" when the text is not an integer |
| Addon.ServerPortClamps | __init__.py:85-92 | an integer's text becomes that integer clamped |
| Addon.ServerPortIdempotent | __init__.py:106-110 | sanitising a sanitised port changes nothing |
| Addon.ServerPortFixedPoints | __init__.py:106-110 | a port text is left as it is exactly when it is the canonical text of an integer in range |
| Addon.DefaultPrefsSane | __init__.py:113-137 | the defaults are already sanitised |
| Addon.Preferences.constructor | __init__.py:113-137 | preferences start at the defaults |
| Addon.Preferences.MarkDirty | __init__.py:95-96 | only the dirty flag changes, to true |
| Addon.Preferences.UpdateShortcutKey | __init__.py:99-103 | the key becomes its sanitised form and the flag is dirty; the hook's reassignment runs it again, which idempotence ends |
| Addon.Preferences.UpdateServerPort | __init__.py:106-110 | the port becomes its sanitised form and the flag is dirty |
| Addon.Preferences.SetShortcutKey | __init__.py:99-103 | assigning the key stores its sanitised form, marks the flag dirty, and keeps the preferences sane |
| Addon.Preferences.SetServerPort | __init__.py:106-110 | assigning the port stores its sanitised form, marks the flag dirty, and keeps the preferences sane |
| Addon.Preferences.SetUseShift | __init__.py:113-137 | only `use_shift` changes, and the flag becomes dirty |
| Addon.Preferences.SetUseAlt | __init__.py:113-137 | only `use_alt` changes, and the flag becomes dirty |
| Addon.Preferences.SetUseCtrl | __init__.py:113-137 | only `use_ctrl` changes, and the flag becomes dirty |
| Addon.PreferredChord | __init__.py:180-194 | the chord's key is always one lower-case letter |
| Addon.BuildPreviewShortcutLabel | __init__.py:180-194 | "shift+ctrl+u" without preferences; else the enabled modifiers (shift, ctrl, alt) then the key, joined by '+' |
| Addon.NoPrefsLabel | __init__.py:180-194 | no preferences gives "shift+ctrl+u", the same as the defaults |
| Addon.JoinPlusCons | __init__.py:194 | joining with '+' splits at the head |
| Addon.JoinPlusOptional | __init__.py:183-194 | an optional leading modifier adds its name and '+' in front of the rest of the label |
| Addon.LabelSpelling | __init__.py:180-194 | the label is each enabled modifier followed by '+', then the key |
| Addon.ReadPrefix | __init__.py:180-194 | a modifier's spelling reads back off the front of the label |
| Addon.LabelRoundTrip | __init__.py:180-194 | the label reads back as exactly the chord it was built from |
| Addon.ReadSpelling | __init__.py:180-194 | the spelled-out label reads back as its chord |
| Addon.PreviewItem | __init__.py:233-247 | the keymap item binds the preview operator to the upper-cased key |
| Addon.LabelMatchesKeymap | __init__.py:180-247 | the label names exactly the modifiers and key of the registered item |
| Addon.RegisterReplaces | __init__.py:197-248 | registering keeps the list tracked with exactly one entry; registering again replaces the entry |
| Addon.Keymaps.constructor | __init__.py:197-248 | the list starts empty |
| Addon.Keymaps.Clear | __init__.py:197-219 | the loop takes every tracked item out of the keyconfig (when there is one), and the list ends empty |
| Addon.Keymaps.Register | __init__.py:222-248 | clears, then adds the one item, when a window manager and keyconfig exist |
| Addon.RemoveNext | __init__.py:212-217 | removing the next tracked item extends the removed prefix by one |
| Addon.PreferredPort | __init__.py:263-268 | the port asked for is always in [1, 65535] |
| Addon.WebPreviewServer.constructor | __init__.py:257-261 | no process, port 3000, no temporary directory, not running |
| Addon.WebPreviewServer.FindAvailablePort | __init__.py:263-268 | the port becomes the sanitised preference, and is returned |
| Addon.WebPreviewServer.StartServer | __init__.py:270-295 | nothing when running; otherwise temp dir and port set, and running exactly when the process started |
| Addon.WebPreviewServer.StopServer | __init__.py:297-317 | nothing when not running; otherwise no process, not running, and the temp dir dropped when it was removed |
| Addon.WebPreviewServer.GetUrl | __init__.py:319-323 | a URL exactly while running, naming the server's port |
| Addon.SaveFinishesOnlyWhenDirty | __init__.py:417-436 | it finishes exactly for dirty preferences without a save error; a cancel reports info only for clean preferences |
| Addon.SavePreferences | __init__.py:417-436 | the outcome as above: a cancel changes nothing; a finish clears the dirty flag and re-registers the keymap |

## Left out

- Rendering, WebGL, `GLTFLoader`/DRACO decoding, `Box3.setFromObject`, vector normalisation and `lookAt`, and the geometry of `VertexNormalsHelper` are Three.js internals. They are abstract values or parameters here.
- Floating point: times, intensities and positions are reals. `toLocaleString` grouping separators in the model statistics are not modelled; counts are shown as plain decimals.
- `tan` and the square root are abstract. The framing takes `tan(fov / 2)` as a positive parameter, and the length of the camera's offset from the controls' target as a parameter (`Framing.offsetLength`). Actions.FrameOnBox, Actions.ResetCameraToScene and SceneSetup.CenterCameraOnModel divide the offset by it as `normalize()` does; Actions.FrameWithControlsDistance requires it to be the offset's true length.
- The program as written does not load. actions.js imports `getReferenceCameraPose` from state.js (web_vite/src/viewer/actions.js:19) and `setAnimationSliderValue` from ui.js (web_vite/src/viewer/actions.js:23), and neither module exports that name. An ES module that imports a missing export fails to link with a SyntaxError, so actions.js does not load, and neither do scene.js and controls.js, which import it. The model is of the evidently intended program, in which both exports exist. What it assumes of them follows.
- Actions.ResetCameraToScene: the reference-pose branch (web_vite/src/viewer/actions.js:138-158) is not modelled. Nothing in state.js stores a reference pose, so the model treats the pose as always absent.
- Ui.SetAnimationSliderValue: the model writes the slider's value when the slider exists, as the call sites evidently intend.
- Asynchronous plumbing is not modelled: `fetch`, Promises, `requestAnimationFrame` scheduling and the resize listener (`handleResize`). The frame loop is one frame, `AnimateFrame`; the descriptor and the loader's outcome are parameters.
- DOM element creation in `showErrorMessage` and `createRenderer`/`createCamera` is reduced to the resulting values. The error box's styling is not modelled.
- `setModelFileSize` (web_vite/src/viewer/ui.js:77-83) is not modelled. It formats a file size in megabytes and holds no decision beyond its guard.
- The mixer is only a clock. `mixer.update` does not advance the actions' own times, and `action.stop()` is modelled as Three.js's reset (unscheduled, unpaused, time 0).
- Grid visibility is kept on the grid handle in the state. The grid node in the scene is a marker, so aliasing between the two is not modelled.
- Console logging and warnings are not modelled.
- In web_vite/scripts/addon-path.mjs, `path.resolve` is modelled for the path forms the script meets: a root `/` (on Windows a drive root such as `C:\`, or a leading separator that keeps the current drive) followed by segments. UNC paths (`\\server\share`) and drive-relative paths (`C:foo`) are not modelled; `C:foo` is read as a relative name. The working directory is the `cwd` field of `AddonPath.Env`, in place of `process.cwd()`.
- AddonPath.BelowRootIsNotOutside, AddonPath.RelativeCustomDirIsInside and AddonPath.NotAddonPathStaysInside require a project root below the filesystem root: at `/` the prefix tested is `//` and nothing is inside (AddonPath.FilesystemRootExample).
- AddonPath.RootIsNotOutside, AddonPath.BelowRootIsNotOutside and AddonPath.EscapeIsOutside are stated for an absolute root. For a relative root the same follows through the working directory but is not proved.
- AddonPath.NormalizeForComparison: `toLowerCase` is modelled for ASCII capitals only. JavaScript folds every Unicode capital, and for some (such as 'İ', which becomes two code units) the length changes; neither is modelled.
- AddonPath.NormalizeChar: ASCII capitals only, as above.
- AddonPath.SlashesAndCaseEqualIff: equality up to ASCII case only, as above.
- Addon.SanitizeShortcutKey: only ASCII letters are letters, and only ASCII case is folded. Python's Unicode `isalpha`/`lower` are not modelled.
- Addon.SanitizeServerPort: `int()` accepts an optionally signed run of decimal digits only. Surrounding whitespace and digit underscores are not modelled.
- The `maxlen` of the string properties is not modelled. Neither is the preferences panel drawing, which includes the save button being enabled only when dirty.
- In __init__.py, these are not modelled:
  - `resolve_web_build_dir` and `copy_vite_dist_contents`;
  - the glTF export and packaging;
  - the preview and export operators;
  - the stop-server operator's UI;
  - `subprocess`, `tempfile`, `shutil` and `webbrowser`.
  
  These are file system and process I/O. A spawned process and a created temporary directory are parameters of `StartServer`. Whether the directory still exists is a parameter of `StopServer`.
- Addon.Keymaps.Register: the `keymaps.new` call that finds or creates the Window keymap is not modelled. The keymap item is always created, so the guard on the new keymap and item always holds.
- Addon.WebPreviewServer.StartServer: a failed start leaves the temporary directory and the port set, as the code does. For `StopServer`, a directory already gone stays recorded.
- Addon.SavePreferences: the error text of `save_userpref` is a parameter.

## Behaviour worth knowing

Two behaviours follow the code as written, where a reader might expect otherwise:

- The displayed animation time wraps with `%` (web_vite/src/viewer/animation.js:22), so playback never stops at the end of a clip.
- After a failed descriptor fetch, the controls are first shown (web_vite/src/viewer/scene.js:176-179). The handler registration then hides them again, because `has_animations` defaults to false (web_vite/src/viewer/scene.js:333-336 and web_vite/src/viewer/controls.js:109-113).
