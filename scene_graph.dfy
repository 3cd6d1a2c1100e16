/** The live scene graph as the display toggles see it: the nodes that
    `scene.traverse` visits, in traversal order, each tagged with the
    capability the toggles dispatch on (`isMesh`, `isLight`, the ambient
    light class, the grid, the normals overlay). The scene root itself and
    every other object (groups, cameras) are `Group` nodes. */
module SceneGraph {
  import opened Common

  datatype LightKind = Ambient | Directional | OtherLight

  /** A mesh material: `uuid` is its identity, the rest the flags the viewer writes. */
  datatype Material = Material(uuid: nat, flatShading: bool, needsUpdate: bool, wireframe: bool)

  /** A mesh geometry: the `position` attribute's count and the `index`'s count, when present. */
  datatype Geometry = Geometry(positionCount: Option<nat>, indexCount: Option<nat>)

  datatype Node =
    | Mesh(material: Option<Material>, geometry: Option<Geometry>, castShadow: bool, receiveShadow: bool)
    | Light(kind: LightKind, intensity: real, originalIntensity: Option<real>, visible: bool)
    | Grid
    | Helper(target: nat)   // the vertex-normals overlay drawn for the mesh at index `target`
    | Group

  predicate HasMaterial(n: Node) {
    n.Mesh? && n.material.Some?
  }

  predicate HasGeometry(n: Node) {
    n.Mesh? && n.geometry.Some?
  }

  // ---------------------------------------------------------------------
  // Per-node effect of each traversal (the body of each traverse callback)

  /** `applyShadingMode`: flat shading iff the mode is "flat", and the material is marked for re-upload. */
  function ShadeNode(n: Node, mode: string): Node {
    if HasMaterial(n) then
      n.(material := Some(n.material.value.(flatShading := mode == "flat", needsUpdate := true)))
    else n
  }

  /** `toggleWireframe`. */
  function WireframeNode(n: Node, enabled: bool): Node {
    if HasMaterial(n) then n.(material := Some(n.material.value.(wireframe := enabled))) else n
  }

  /** `toggleLights`: every light but the ambient one. */
  function LightVisibilityNode(n: Node, visible: bool): Node {
    if n.Light? && n.kind != Ambient then n.(visible := visible) else n
  }

  /** The intensity a light's scaling is measured from: the stored original,
      or the current intensity when none (or zero, which `||` treats as
      missing) is stored. */
  function BaseIntensity(n: Node): real
    requires n.Light?
  {
    if n.originalIntensity.Some? && n.originalIntensity.value != 0.0 then n.originalIntensity.value
    else n.intensity
  }

  /** `updateLightingIntensity`: every light, ambient included. */
  function ScaleNode(n: Node, factor: real): Node {
    if n.Light? then
      var original := BaseIntensity(n);
      n.(originalIntensity := Some(original), intensity := original * factor)
    else n
  }

  /** The model loader's traversal: every mesh casts and receives shadows. */
  function ShadowNode(n: Node): Node {
    if n.Mesh? then n.(castShadow := true, receiveShadow := true) else n
  }

  /** `createLighting`'s traversal: a directional light records its intensity as the original. */
  function CaptureDirectionalNode(n: Node): Node {
    if n.Light? && n.kind == Directional then n.(originalIntensity := Some(n.intensity)) else n
  }

  function ShadeAll(s: seq<Node>, mode: string): seq<Node> {
    MapSeq((n: Node) => ShadeNode(n, mode), s)
  }

  function WireframeAll(s: seq<Node>, enabled: bool): seq<Node> {
    MapSeq((n: Node) => WireframeNode(n, enabled), s)
  }

  function LightVisibilityAll(s: seq<Node>, visible: bool): seq<Node> {
    MapSeq((n: Node) => LightVisibilityNode(n, visible), s)
  }

  function ScaleAll(s: seq<Node>, factor: real): seq<Node> {
    MapSeq((n: Node) => ScaleNode(n, factor), s)
  }

  function ShadowAll(s: seq<Node>): seq<Node> {
    MapSeq(ShadowNode, s)
  }

  function CaptureDirectionalAll(s: seq<Node>): seq<Node> {
    MapSeq(CaptureDirectionalNode, s)
  }

  // ---------------------------------------------------------------------
  // The normals overlay

  /** Number of normals overlays in the scene. */
  function HelperCount(s: seq<Node>): nat {
    if |s| == 0 then 0 else HelperCount(s[..|s| - 1]) + (if s[|s| - 1].Helper? then 1 else 0)
  }

  /** Index of the first mesh that has a geometry, in traversal order. */
  function FirstMeshWithGeometry(s: seq<Node>): (r: Option<nat>)
    ensures r.Some? ==> r.value < |s| && HasGeometry(s[r.value])
    ensures r.Some? ==> forall j :: 0 <= j < r.value ==> !HasGeometry(s[j])
    ensures r.None? ==> forall j :: 0 <= j < |s| ==> !HasGeometry(s[j])
  {
    if |s| == 0 then None
    else if HasGeometry(s[0]) then Some(0)
    else match FirstMeshWithGeometry(s[1..])
      case Some(k) => Some(k + 1)
      case None => None
  }

  /** `scene.remove(x)`: `x` taken out, the rest in order. */
  function Remove(s: seq<Node>, x: Node): (r: seq<Node>)
    ensures x !in r
    ensures forall n :: n in r <==> n in s && n != x
  {
    if |s| == 0 then []
    else if s[|s| - 1] == x then Remove(s[..|s| - 1], x)
    else Remove(s[..|s| - 1], x) + [s[|s| - 1]]
  }

  lemma {:induction false} HelperCountAppend(s: seq<Node>, t: seq<Node>)
    ensures HelperCount(s + t) == HelperCount(s) + HelperCount(t)
    decreases |t|
  {
    if |t| == 0 {
      assert s + t == s;
    } else {
      assert (s + t)[..|s + t| - 1] == s + t[..|t| - 1];
      HelperCountAppend(s, t[..|t| - 1]);
    }
  }

  lemma {:induction false} HelperCountZero(s: seq<Node>)
    ensures HelperCount(s) == 0 <==> forall j :: 0 <= j < |s| ==> !s[j].Helper?
    decreases |s|
  {
    if |s| > 0 {
      HelperCountZero(s[..|s| - 1]);
      assert forall j :: 0 <= j < |s| - 1 ==> s[..|s| - 1][j] == s[j];
    }
  }

  /** Removing the overlay `x` takes out every copy of it and no other overlay. */
  lemma {:induction false} RemoveHelperCount(s: seq<Node>, x: Node)
    requires x.Helper?
    ensures HelperCount(Remove(s, x)) + multiset(s)[x] == HelperCount(s)
    decreases |s|
  {
    if |s| > 0 {
      var p := s[..|s| - 1];
      assert s == p + [s[|s| - 1]];
      RemoveHelperCount(p, x);
      if s[|s| - 1] != x {
        HelperCountAppend(Remove(p, x), [s[|s| - 1]]);
      }
    }
  }

  /** `t` is `s` changed away from the overlays: the same length, the
      overlays at the same places, and each overlay untouched. */
  predicate KeepsHelpers(s: seq<Node>, t: seq<Node>) {
    |t| == |s| &&
    forall i :: 0 <= i < |s| ==> (t[i].Helper? <==> s[i].Helper?) && (s[i].Helper? ==> t[i] == s[i])
  }

  /** A change away from the overlays keeps their number and which overlays there are. */
  lemma {:induction false} KeepsHelpersCount(s: seq<Node>, t: seq<Node>)
    requires KeepsHelpers(s, t)
    ensures HelperCount(t) == HelperCount(s)
    ensures forall x: Node :: x.Helper? ==> (x in t <==> x in s)
    decreases |s|
  {
    if |s| > 0 {
      var n := |s| - 1;
      assert KeepsHelpers(s[..n], t[..n]);
      KeepsHelpersCount(s[..n], t[..n]);
    }
    forall x: Node | x.Helper? && x in t ensures x in s {
      var i :| 0 <= i < |t| && t[i] == x;
      assert s[i] == x;
    }
    forall x: Node | x.Helper? && x in s ensures x in t {
      var i :| 0 <= i < |s| && s[i] == x;
      assert t[i] == x;
    }
  }

  /** Every display toggle, the intensity scaling and the loader's shadow
      traversal leave the overlays alone. */
  lemma TogglesKeepHelpers(s: seq<Node>, mode: string, enabled: bool, visible: bool, factor: real)
    ensures KeepsHelpers(s, ShadeAll(s, mode))
    ensures KeepsHelpers(s, WireframeAll(s, enabled))
    ensures KeepsHelpers(s, LightVisibilityAll(s, visible))
    ensures KeepsHelpers(s, ScaleAll(s, factor))
    ensures KeepsHelpers(s, ShadowAll(s))
  {
  }

  // ---------------------------------------------------------------------
  // Properties of the display toggles

  /** Shading and wireframe write different material flags, so the order of the two toggles does not matter. */
  lemma ShadingWireframeCommute(s: seq<Node>, mode: string, enabled: bool)
    ensures WireframeAll(ShadeAll(s, mode), enabled) == ShadeAll(WireframeAll(s, enabled), mode)
  {
    var a := WireframeAll(ShadeAll(s, mode), enabled);
    var b := ShadeAll(WireframeAll(s, enabled), mode);
    forall i | 0 <= i < |s| ensures a[i] == b[i] { }
  }

  /** Each toggle is idempotent, and a second toggle overrides the first. */
  lemma TogglesLastWriteWins(s: seq<Node>, m1: string, m2: string, e1: bool, e2: bool, v1: bool, v2: bool)
    ensures ShadeAll(ShadeAll(s, m1), m2) == ShadeAll(s, m2)
    ensures WireframeAll(WireframeAll(s, e1), e2) == WireframeAll(s, e2)
    ensures LightVisibilityAll(LightVisibilityAll(s, v1), v2) == LightVisibilityAll(s, v2)
  {
    var a := ShadeAll(ShadeAll(s, m1), m2);
    forall i | 0 <= i < |s| ensures a[i] == ShadeAll(s, m2)[i] { }
    var b := WireframeAll(WireframeAll(s, e1), e2);
    forall i | 0 <= i < |s| ensures b[i] == WireframeAll(s, e2)[i] { }
    var c := LightVisibilityAll(LightVisibilityAll(s, v1), v2);
    forall i | 0 <= i < |s| ensures c[i] == LightVisibilityAll(s, v2)[i] { }
  }

  /** `toggleLights` sets exactly the non-ambient lights' visibility; the
      ambient light and every other node is left as it was. */
  lemma LightVisibilityScope(s: seq<Node>, visible: bool, i: nat)
    requires i < |s|
    ensures |LightVisibilityAll(s, visible)| == |s|
    ensures s[i].Light? && s[i].kind != Ambient ==> LightVisibilityAll(s, visible)[i] == s[i].(visible := visible)
    ensures !(s[i].Light? && s[i].kind != Ambient) ==> LightVisibilityAll(s, visible)[i] == s[i]
  {
  }

  /** Shading and wireframe change only meshes that have a material, and
      within such a mesh only its material's own flags. */
  lemma MaterialTogglesScope(s: seq<Node>, mode: string, enabled: bool, i: nat)
    requires i < |s|
    ensures !HasMaterial(s[i]) ==> ShadeAll(s, mode)[i] == s[i] && WireframeAll(s, enabled)[i] == s[i]
    ensures HasMaterial(s[i]) ==>
      var m := s[i].material.value;
      ShadeAll(s, mode)[i].material == Some(m.(flatShading := mode == "flat", needsUpdate := true)) &&
      WireframeAll(s, enabled)[i].material == Some(m.(wireframe := enabled)) &&
      ShadeAll(s, mode)[i].geometry == s[i].geometry && WireframeAll(s, enabled)[i].geometry == s[i].geometry
  {
  }

  /** Scaling never changes the intensity that later scalings are measured from. */
  lemma BaseIntensityStable(n: Node, factor: real)
    requires n.Light?
    ensures BaseIntensity(ScaleNode(n, factor)) == BaseIntensity(n)
  {
    var o := BaseIntensity(n);
    var p := o * factor;
    if o == 0.0 {
      assert p == 0.0;
    }
  }

  /** Scaling with the same factor twice is the same as once. */
  lemma ScaleIdempotent(s: seq<Node>, factor: real)
    ensures ScaleAll(ScaleAll(s, factor), factor) == ScaleAll(s, factor)
  {
    var a := ScaleAll(ScaleAll(s, factor), factor);
    forall i | 0 <= i < |s| ensures a[i] == ScaleAll(s, factor)[i] {
      if s[i].Light? {
        BaseIntensityStable(s[i], factor);
      }
    }
  }

  /** Scale a scene by each factor in turn. */
  function ScaleSeries(s: seq<Node>, factors: seq<real>): seq<Node>
    decreases |factors|
  {
    if |factors| == 0 then s else ScaleSeries(ScaleAll(s, factors[0]), factors[1..])
  }

  /** After any series of slider moves a light's intensity is its first
      original times the last factor alone, and that original is what it stores. */
  lemma {:induction false} ScaleSeriesLastFactorWins(s: seq<Node>, factors: seq<real>, i: nat)
    requires i < |s| && s[i].Light? && |factors| > 0
    ensures |ScaleSeries(s, factors)| == |s|
    ensures ScaleSeries(s, factors)[i].Light?
    ensures ScaleSeries(s, factors)[i].intensity == BaseIntensity(s[i]) * factors[|factors| - 1]
    ensures ScaleSeries(s, factors)[i].originalIntensity == Some(BaseIntensity(s[i]))
    decreases |factors|
  {
    var t := ScaleAll(s, factors[0]);
    BaseIntensityStable(s[i], factors[0]);
    if |factors| == 1 {
      assert ScaleSeries(s, factors) == ScaleSeries(t, []);
    } else {
      ScaleSeriesLastFactorWins(t, factors[1..], i);
      assert factors[1..][|factors[1..]| - 1] == factors[|factors| - 1];
    }
  }

  /** However many scalings came before, factor 1 puts every light back at
      the intensity it had when it was first scaled (or captured). */
  lemma {:induction false} ScaleSeriesThenOneRestores(s: seq<Node>, factors: seq<real>, i: nat)
    requires i < |s| && s[i].Light?
    ensures |ScaleSeries(s, factors)| == |s|
    ensures ScaleSeries(s, factors)[i].Light?
    ensures BaseIntensity(ScaleSeries(s, factors)[i]) == BaseIntensity(s[i])
    ensures ScaleAll(ScaleSeries(s, factors), 1.0)[i].intensity == BaseIntensity(s[i])
    decreases |factors|
  {
    if |factors| > 0 {
      BaseIntensityStable(s[i], factors[0]);
      ScaleSeriesThenOneRestores(ScaleAll(s, factors[0]), factors[1..], i);
    }
  }

  /** Light visibility and intensity touch different fields, so the two commute. */
  lemma VisibilityScaleCommute(s: seq<Node>, visible: bool, factor: real)
    ensures ScaleAll(LightVisibilityAll(s, visible), factor) == LightVisibilityAll(ScaleAll(s, factor), visible)
  {
    var a := ScaleAll(LightVisibilityAll(s, visible), factor);
    forall i | 0 <= i < |s| ensures a[i] == LightVisibilityAll(ScaleAll(s, factor), visible)[i] { }
  }
}
