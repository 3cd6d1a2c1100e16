/** The per-frame animation step (web_vite/src/viewer/animation.js). */
module Animation {
  import opened Common
  import opened ViewerState
  import opened Ui

  /** The step does anything at all: a mixer, playing, and a clip of positive length. */
  predicate TickActive(r: StateRecord) {
    r.mixer.Some? && r.isPlaying && r.animationDuration > 0.0
  }

  /** The record after `tickAnimations(dt)`: the mixer's clock moves on by `dt`. */
  function TickRecord(r: StateRecord, dt: real): StateRecord {
    if TickActive(r) then r.(mixer := Some(Mixer(r.mixer.value.time + dt))) else r
  }

  /** The time shown after a step: the mixer's clock wrapped into the clip. */
  function WrappedTime(r: StateRecord): real
    requires r.mixer.Some? && r.animationDuration > 0.0
  {
    JsRem(r.mixer.value.time, r.animationDuration)
  }

  /** The page after `tickAnimations(dt)`: slider and time display show the wrapped time. */
  function TickPage(v: PageView, r: StateRecord, dt: real): PageView {
    if TickActive(r) then
      var after := TickRecord(r, dt);
      var t := WrappedTime(after);
      v.(sliderValue := if HasRef(r.dom, "animationSlider") then t else v.sliderValue,
         animationTime := if HasRef(r.dom, "animationTime") then TimeDisplay(t, r.animationDuration) else v.animationTime)
    else v
  }

  method Tick(st: State, page: Page, dt: real)
    modifies st, page
    ensures st.Record() == TickRecord(old(st.Record()), dt)
    ensures page.View() == TickPage(old(page.View()), old(st.Record()), dt)
  {
    var mixer := st.GetMixer();
    if mixer.None? || !st.IsPlaying() {
      return;
    }
    var duration := st.GetAnimationDuration();
    if !(duration > 0.0) {
      return;
    }
    st.SetMixer(Some(Mixer(mixer.value.time + dt)));
    var time := JsRem(st.mixer.value.time, duration);
    if HasRef(st.GetDomRefs(), "animationSlider") {
      page.sliderValue := time;
    }
    UpdateAnimationTimeDisplay(st.GetDomRefs(), page, time, duration);
  }

  /** No mixer, not playing, or no positive duration: the step changes nothing. */
  lemma TickInactiveIsNoOp(r: StateRecord, v: PageView, dt: real)
    requires r.mixer.None? || !r.isPlaying || !(r.animationDuration > 0.0)
    ensures TickRecord(r, dt) == r && TickPage(v, r, dt) == v
  {
  }

  /** An active step advances the mixer by exactly `dt` and nothing else:
      the playing flag and every action (loop mode, paused flag) are kept. */
  lemma TickAdvancesOnlyTheClock(r: StateRecord, dt: real)
    requires TickActive(r)
    ensures TickRecord(r, dt).mixer == Some(Mixer(r.mixer.value.time + dt))
    ensures TickRecord(r, dt).(mixer := r.mixer) == r
  {
  }

  /** The shown time stays inside the clip, [0, duration), whenever the
      clock has not gone negative. */
  lemma TickDisplayInClip(r: StateRecord, dt: real)
    requires TickActive(r) && r.mixer.value.time + dt >= 0.0
    ensures 0.0 <= WrappedTime(TickRecord(r, dt)) < r.animationDuration
  {
    JsRemRange(r.mixer.value.time + dt, r.animationDuration);
  }

  /** Steps with the given frame times, one after another. */
  function TickSeries(r: StateRecord, dts: seq<real>): StateRecord
    decreases |dts|
  {
    if |dts| == 0 then r else TickSeries(TickRecord(r, dts[0]), dts[1..])
  }

  function Sum(dts: seq<real>): real
    decreases |dts|
  {
    if |dts| == 0 then 0.0 else dts[0] + Sum(dts[1..])
  }

  /** Playback never stops at the end of a clip: any number of frames keep
      the viewer playing, and the clock is the start time plus every frame
      time, however far past the duration that goes. */
  lemma {:induction false} TickSeriesKeepsPlaying(r: StateRecord, dts: seq<real>)
    requires TickActive(r)
    ensures TickActive(TickSeries(r, dts))
    ensures TickSeries(r, dts).mixer == Some(Mixer(r.mixer.value.time + Sum(dts)))
    ensures TickSeries(r, dts).(mixer := r.mixer) == r
    decreases |dts|
  {
    if |dts| > 0 {
      TickSeriesKeepsPlaying(TickRecord(r, dts[0]), dts[1..]);
    }
  }

  /** Past the end the shown time wraps round to the start of the clip. */
  lemma WrapsPastTheEnd(r: StateRecord)
    requires r.mixer.Some? && r.animationDuration > 0.0
    requires r.animationDuration <= r.mixer.value.time < 2.0 * r.animationDuration
    ensures WrappedTime(r) == r.mixer.value.time - r.animationDuration
  {
    var t := r.mixer.value.time;
    var d := r.animationDuration;
    JsRemRange(t, d);
    var q := (t / d).Floor;
    var x := t / d;
    assert x * d == t;
    assert 1.0 <= x by {
      assert d * (x - 1.0) == t - d;
    }
    var y := 2.0 - x;
    var p := d * y;
    assert p == 2.0 * d - t;
    assert t < 2.0 * d;
    assert p > 0.0;
    PositiveFactor(d, y);
    assert q == 1;
  }
}
