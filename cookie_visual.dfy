/**
 * The cookie avatar renderer (components/CookieVisual.tsx): a total, pure
 * mapping from a `CookieConfig` to the ordered list of shapes drawn in a
 * fixed 200x200 view box. Path geometry is kept as opaque outline tokens;
 * colours are opaque strings passed through verbatim.
 */
module CookieVisual {
  import opened Types

  /** The drawing layers, in the order the component emits them. */
  datatype Layer = Body | Shirt | Buttons | Eyes | Mouth | Accessory

  /** Position of a layer in the drawing order. */
  function Rank(l: Layer): nat
  {
    match l
    case Body => 0
    case Shirt => 1
    case Buttons => 2
    case Eyes => 3
    case Mouth => 4
    case Accessory => 5
  }

  /** The selector-driven layers: one variant each, or nothing. */
  predicate IsFeature(l: Layer)
  {
    l == Eyes || l == Mouth || l == Accessory
  }

  /** The `d` attribute of each path drawn, as an opaque token. */
  datatype Outline =
    | BodyOutline | ShirtBand
    | LeftEyeLine | RightEyeLine
    | SmileCurve | FrownCurve
    | HatCone | BowtieWings | ScarfBand

  /** A fill: a colour string as given, or `none`. */
  datatype Paint = Color(css: string) | NoPaint

  datatype Stroke = NoStroke | Stroke(color: string, width: nat)

  datatype Shape =
    | Path(layer: Layer, d: Outline, fill: Paint, stroke: Stroke, opacity: real)
    | Circle(layer: Layer, cx: int, cy: int, r: nat, fill: Paint)
    | Rect(layer: Layer, x: int, y: int, width: nat, height: nat, rx: nat, fill: Paint)

  /** The container animation the caller asks for; it does not affect the shapes. */
  datatype Motion = Idle | Hover

  /** What the component returns: a sized container around a fixed view box. */
  datatype Visual = Visual(
    width: int, height: int,
    viewBox: (int, int, int, int),
    motion: Motion,
    shapes: seq<Shape>)

  const DefaultSize: int := 200
  const BodyStroke := "#8B4F24"
  const Ink := "#3E2723"
  const White := "white"
  const Red := "#D83939"
  const Green := "#176A3A"

  /** The body silhouette (components/CookieVisual.tsx:28-33). */
  function BodyShapes(skinColor: string): seq<Shape>
  {
    [Path(Body, BodyOutline, Color(skinColor), Stroke(BodyStroke, 3), 1.0)]
  }

  /** The shirt band, drawn even for the `transparent` colour (components/CookieVisual.tsx:36-40). */
  function ShirtShapes(shirtColor: string): seq<Shape>
  {
    [Path(Shirt, ShirtBand, Color(shirtColor), NoStroke, 0.9)]
  }

  /** The two white buttons (components/CookieVisual.tsx:42-43). */
  function ButtonShapes(): seq<Shape>
  {
    [Circle(Buttons, 100, 110, 4, Color(White)), Circle(Buttons, 100, 125, 4, Color(White))]
  }

  /** The eye variant selected by `eyeType` (components/CookieVisual.tsx:46-65). */
  function EyeShapes(eyeType: int): (r: seq<Shape>)
    ensures forall s :: s in r ==> s.layer == Eyes
    ensures eyeType == 0 ==>
      |r| == 2 && forall s :: s in r ==> s.Circle? && s.r == 5 && s.fill == Color(Ink)
    ensures eyeType == 1 ==>
      |r| == 2 && forall s :: s in r ==> s.Path? && s.fill == NoPaint && s.stroke == Stroke(Ink, 3)
    ensures eyeType == 2 ==>
      |r| == 4 && (forall s :: s in r ==> s.Circle?)
      && r[0].r == r[1].r == 6 && r[0].fill == r[1].fill == Color(Ink)
      && r[2].r == r[3].r == 2 && r[2].fill == r[3].fill == Color(White)
    ensures eyeType !in {0, 1, 2} ==> r == []
  {
    if eyeType == 0 then
      [Circle(Eyes, 80, 75, 5, Color(Ink)), Circle(Eyes, 120, 75, 5, Color(Ink))]
    else if eyeType == 1 then
      [Path(Eyes, LeftEyeLine, NoPaint, Stroke(Ink, 3), 1.0),
       Path(Eyes, RightEyeLine, NoPaint, Stroke(Ink, 3), 1.0)]
    else if eyeType == 2 then
      [Circle(Eyes, 80, 75, 6, Color(Ink)), Circle(Eyes, 120, 75, 6, Color(Ink)),
       Circle(Eyes, 82, 73, 2, Color(White)), Circle(Eyes, 122, 73, 2, Color(White))]
    else
      []
  }

  /** The mouth variant selected by `mouthType` (components/CookieVisual.tsx:68-76). */
  function MouthShapes(mouthType: int): (r: seq<Shape>)
    ensures forall s :: s in r ==> s.layer == Mouth
    ensures mouthType == 0 ==> r == [Path(Mouth, SmileCurve, NoPaint, Stroke(Ink, 3), 1.0)]
    ensures mouthType == 1 ==> |r| == 1 && r[0].Circle? && r[0].r == 5 && r[0].fill == Color(Ink)
    ensures mouthType == 2 ==> r == [Path(Mouth, FrownCurve, NoPaint, Stroke(Ink, 3), 1.0)]
    ensures mouthType !in {0, 1, 2} ==> r == []
  {
    if mouthType == 0 then [Path(Mouth, SmileCurve, NoPaint, Stroke(Ink, 3), 1.0)]
    else if mouthType == 1 then [Circle(Mouth, 100, 95, 5, Color(Ink))]
    else if mouthType == 2 then [Path(Mouth, FrownCurve, NoPaint, Stroke(Ink, 3), 1.0)]
    else []
  }

  /** The accessory overlay selected by `accessory` (components/CookieVisual.tsx:79-94). */
  function AccessoryShapes(accessory: int): (r: seq<Shape>)
    ensures forall s :: s in r ==> s.layer == Accessory
    ensures accessory == 1 ==>
      |r| == 3 && r[0].Path? && r[0].d == HatCone
      && r[1].Circle? && r[1].fill == Color(White)
      && r[2].Rect? && r[2].fill == Color(White)
    ensures accessory == 2 ==> |r| == 1 && r[0].Path? && r[0].d == BowtieWings
    ensures accessory == 3 ==> |r| == 1 && r[0].Path? && r[0].d == ScarfBand
    ensures accessory !in {1, 2, 3} ==> r == []
  {
    if accessory == 1 then
      [Path(Accessory, HatCone, Color(Red), NoStroke, 1.0),
       Circle(Accessory, 140, 40, 8, Color(White)),
       Rect(Accessory, 65, 30, 70, 15, 5, Color(White))]
    else if accessory == 2 then [Path(Accessory, BowtieWings, Color(Red), NoStroke, 1.0)]
    else if accessory == 3 then [Path(Accessory, ScarfBand, Color(Green), NoStroke, 1.0)]
    else []
  }

  /** The value of the selector that drives feature layer `l`. */
  function Selector(cfg: CookieConfig, l: Layer): int
    requires IsFeature(l)
  {
    match l
    case Eyes => cfg.eyeType
    case Mouth => cfg.mouthType
    case Accessory => cfg.accessory
  }

  /** The shapes variant `v` of feature layer `l` draws. */
  function VariantShapes(l: Layer, v: int): seq<Shape>
    requires IsFeature(l)
  {
    match l
    case Eyes => EyeShapes(v)
    case Mouth => MouthShapes(v)
    case Accessory => AccessoryShapes(v)
  }

  /** The block of shapes `cfg` draws on layer `l`. */
  function Part(cfg: CookieConfig, l: Layer): (r: seq<Shape>)
    ensures forall s :: s in r ==> s.layer == l
  {
    match l
    case Body => BodyShapes(cfg.skinColor)
    case Shirt => ShirtShapes(cfg.shirtColor)
    case Buttons => ButtonShapes()
    case Eyes => EyeShapes(cfg.eyeType)
    case Mouth => MouthShapes(cfg.mouthType)
    case Accessory => AccessoryShapes(cfg.accessory)
  }

  /** The layer drawn in position `k` (components/CookieVisual.tsx:27-94). */
  function LayerAt(k: nat): (l: Layer)
    requires k < 6
    ensures Rank(l) == k
  {
    if k == 0 then Body
    else if k == 1 then Shirt
    else if k == 2 then Buttons
    else if k == 3 then Eyes
    else if k == 4 then Mouth
    else Accessory
  }

  /** The blocks of the layers from position `k` on, one after another. */
  function BlocksFrom(cfg: CookieConfig, k: nat): seq<Shape>
    decreases 6 - k
  {
    if k >= 6 then [] else Part(cfg, LayerAt(k)) + BlocksFrom(cfg, k + 1)
  }

  lemma {:induction false} BlocksFromLayers(cfg: CookieConfig, k: nat)
    ensures forall s :: s in BlocksFrom(cfg, k) ==> k <= Rank(s.layer)
    decreases 6 - k
  {
    if k < 6 {
      BlocksFromLayers(cfg, k + 1);
    }
  }

  /**
   * The shapes drawn for `cfg`, in drawing order: body, shirt, buttons,
   * eyes, mouth, accessory. The first four are drawn whatever the selectors
   * say, with the colours passed through verbatim.
   */
  function Render(cfg: CookieConfig): (r: seq<Shape>)
    ensures |r| >= 4
    ensures r[0].Path? && r[0].layer == Body && r[0].d == BodyOutline
            && r[0].fill == Color(cfg.skinColor)
    ensures r[1].Path? && r[1].layer == Shirt && r[1].d == ShirtBand
            && r[1].fill == Color(cfg.shirtColor) && r[1].opacity == 0.9
    ensures r[2].Circle? && r[3].Circle? && r[2].layer == r[3].layer == Buttons
            && r[2].fill == r[3].fill == Color(White) && r[2].r == r[3].r == 4
  {
    BodyShapes(cfg.skinColor)
    + (ShirtShapes(cfg.shirtColor)
    + (ButtonShapes()
    + (EyeShapes(cfg.eyeType)
    + (MouthShapes(cfg.mouthType)
    + AccessoryShapes(cfg.accessory)))))
  }

  /** A render is the blocks of all six layers in drawing order. */
  lemma RenderIsBlocks(cfg: CookieConfig)
    ensures Render(cfg) == BlocksFrom(cfg, 0)
  {
    var a := AccessoryShapes(cfg.accessory);
    assert BlocksFrom(cfg, 5) == a + [] == a;
    assert BlocksFrom(cfg, 4) == MouthShapes(cfg.mouthType) + a;
    assert BlocksFrom(cfg, 3) == EyeShapes(cfg.eyeType) + BlocksFrom(cfg, 4);
    assert BlocksFrom(cfg, 2) == ButtonShapes() + BlocksFrom(cfg, 3);
    assert BlocksFrom(cfg, 1) == ShirtShapes(cfg.shirtColor) + BlocksFrom(cfg, 2);
    assert BlocksFrom(cfg, 0) == BodyShapes(cfg.skinColor) + BlocksFrom(cfg, 1);
  }

  /**
   * The plain cookie (dot eyes, smile, no accessory) is seven shapes: body,
   * shirt, two buttons, two ink eye dots and the smile.
   */
  lemma PlainCookieScenario(cfg: CookieConfig)
    requires cfg.eyeType == 0 && cfg.mouthType == 0 && cfg.accessory == 0
    ensures |Render(cfg)| == 7
    ensures Render(cfg)[4].Circle? && Render(cfg)[4].layer == Eyes && Render(cfg)[4].fill == Color(Ink)
    ensures Render(cfg)[5].Circle? && Render(cfg)[5].layer == Eyes && Render(cfg)[5].fill == Color(Ink)
    ensures Render(cfg)[6] == Path(Mouth, SmileCurve, NoPaint, Stroke(Ink, 3), 1.0)
  {
    var eyes := EyeShapes(0);
    var face := eyes + (MouthShapes(0) + AccessoryShapes(0));
    assert eyes[0] in eyes && eyes[1] in eyes;
    assert face == eyes + MouthShapes(0);
    var r := Render(cfg);
    assert r[4..] == face;
  }

  /**
   * The Santa cookie (highlighted eyes, round mouth, hat) is twelve shapes:
   * the four base shapes, four eye circles, the mouth circle, and the hat's
   * cone, pom-pom and brim on top.
   */
  lemma SantaCookieScenario(cfg: CookieConfig)
    requires cfg.eyeType == 2 && cfg.mouthType == 1 && cfg.accessory == 1
    ensures |Render(cfg)| == 12
    ensures forall i :: 4 <= i < 8 ==> Render(cfg)[i].Circle? && Render(cfg)[i].layer == Eyes
    ensures Render(cfg)[8].Circle? && Render(cfg)[8].layer == Mouth
    ensures Render(cfg)[9].Path? && Render(cfg)[9].d == HatCone && Render(cfg)[9].layer == Accessory
    ensures Render(cfg)[10].Circle? && Render(cfg)[10].layer == Accessory
    ensures Render(cfg)[11].Rect? && Render(cfg)[11].layer == Accessory
  {
    var eyes, mouth, hat := EyeShapes(2), MouthShapes(1), AccessoryShapes(1);
    assert forall k :: 0 <= k < 4 ==> eyes[k] in eyes;
    assert mouth[0] in mouth && hat[0] in hat && hat[1] in hat && hat[2] in hat;
    var r := Render(cfg);
    assert r[4..8] == eyes && r[8..] == mouth + hat;
    assert r[8] == mouth[0] && r[9] == hat[0] && r[10] == hat[1] && r[11] == hat[2];
  }

  /**
   * The component: `size` (default 200) sets only the container's width and
   * height; the shapes live in the fixed view box and depend only on
   * `config`. `animate` (default false) picks the hover or idle motion.
   */
  function CookieVisualOf(config: CookieConfig, size: Option<int>, animate: Option<bool>): (v: Visual)
    ensures v.width == v.height == (if size.Some? then size.value else DefaultSize)
    ensures v.viewBox == (0, 0, 200, 200)
    ensures v.shapes == Render(config)
    ensures v.motion == Hover <==> (animate.Some? && animate.value)
  {
    var side := if size.Some? then size.value else DefaultSize;
    var anim := if animate.Some? then animate.value else false;
    Visual(side, side, (0, 0, 200, 200), if anim then Hover else Idle, Render(config))
  }

  // ---------------------------------------------------------------------
  // Layers and drawing order

  /** The shapes of `s` on layer `l`, in order. */
  function OnLayer(s: seq<Shape>, l: Layer): (r: seq<Shape>)
  {
    if s == [] then []
    else (if s[0].layer == l then [s[0]] else []) + OnLayer(s[1..], l)
  }

  lemma {:induction false} OnLayerAppend(a: seq<Shape>, b: seq<Shape>, l: Layer)
    ensures OnLayer(a + b, l) == OnLayer(a, l) + OnLayer(b, l)
    decreases |a|
  {
    if a != [] {
      assert (a + b)[1..] == a[1..] + b;
      OnLayerAppend(a[1..], b, l);
    } else {
      assert a + b == b;
    }
  }

  lemma {:induction false} OnLayerKeeps(s: seq<Shape>, x: Shape)
    ensures x in s ==> x in OnLayer(s, x.layer)
    decreases |s|
  {
    if x in s && s[0] != x {
      assert x in s[1..];
      OnLayerKeeps(s[1..], x);
    }
  }

  lemma {:induction false} OnLayerUniform(s: seq<Shape>, l: Layer, m: Layer)
    requires forall x :: x in s ==> x.layer == m
    ensures OnLayer(s, l) == if l == m then s else []
    decreases |s|
  {
    if s != [] {
      OnLayerUniform(s[1..], l, m);
      if l == m { assert [s[0]] + s[1..] == s; }
    }
  }

  lemma {:induction false} BlocksFromOnLayer(cfg: CookieConfig, k: nat, l: Layer)
    ensures OnLayer(BlocksFrom(cfg, k), l) == if k <= Rank(l) then Part(cfg, l) else []
    decreases 6 - k
  {
    if k < 6 {
      var here := LayerAt(k);
      BlocksFromOnLayer(cfg, k + 1, l);
      OnLayerAppend(Part(cfg, here), BlocksFrom(cfg, k + 1), l);
      OnLayerUniform(Part(cfg, here), l, here);
      if Rank(l) == k {
        assert l == here;
        assert Part(cfg, l) + [] == Part(cfg, l);
      } else {
        assert l != here;
        assert [] + OnLayer(BlocksFrom(cfg, k + 1), l) == OnLayer(BlocksFrom(cfg, k + 1), l);
      }
    }
  }

  /**
   * Each layer of a render holds exactly that layer's block: the fixed
   * body, shirt and buttons, and for each feature the one variant its
   * selector names (nothing for an unrecognised value).
   */
  lemma RenderLayer(cfg: CookieConfig, l: Layer)
    ensures OnLayer(Render(cfg), l) == Part(cfg, l)
  {
    RenderIsBlocks(cfg);
    BlocksFromOnLayer(cfg, 0, l);
  }

  /** No shape of `s` is drawn on a layer earlier than one drawn before it. */
  predicate InDrawingOrder(s: seq<Shape>)
  {
    forall i, j :: 0 <= i < j < |s| ==> Rank(s[i].layer) <= Rank(s[j].layer)
  }

  lemma OrderedPrepend(a: seq<Shape>, b: seq<Shape>, k: nat)
    requires forall x :: x in a ==> Rank(x.layer) == k
    requires forall y :: y in b ==> k <= Rank(y.layer)
    requires InDrawingOrder(b)
    ensures InDrawingOrder(a + b)
  {
    var r := a + b;
    forall i, j | 0 <= i < j < |r|
      ensures Rank(r[i].layer) <= Rank(r[j].layer)
    {
      if j < |a| {
        assert r[i] == a[i] && a[i] in a && r[j] == a[j] && a[j] in a;
      } else if i < |a| {
        assert r[i] == a[i] && a[i] in a;
        assert r[j] == b[j - |a|] && b[j - |a|] in b;
      } else {
        assert r[i] == b[i - |a|] && r[j] == b[j - |a|];
      }
    }
  }

  lemma {:induction false} BlocksFromInDrawingOrder(cfg: CookieConfig, k: nat)
    ensures InDrawingOrder(BlocksFrom(cfg, k))
    decreases 6 - k
  {
    if k < 6 {
      BlocksFromInDrawingOrder(cfg, k + 1);
      BlocksFromLayers(cfg, k + 1);
      OrderedPrepend(Part(cfg, LayerAt(k)), BlocksFrom(cfg, k + 1), k);
    }
  }

  /**
   * A render is in drawing order: body, shirt, buttons, eyes, mouth,
   * accessory, so the accessory overlay lies on top of the face.
   */
  lemma RenderInDrawingOrder(cfg: CookieConfig)
    ensures InDrawingOrder(Render(cfg))
  {
    RenderIsBlocks(cfg);
    BlocksFromInDrawingOrder(cfg, 0);
  }

  /** Every accessory shape is drawn after (on top of) every face shape. */
  lemma AccessoryOverFace(cfg: CookieConfig, i: int, j: int)
    requires 0 <= i < |Render(cfg)| && 0 <= j < |Render(cfg)|
    requires Render(cfg)[i].layer in {Eyes, Mouth} && Render(cfg)[j].layer == Accessory
    ensures i < j
  {
    RenderInDrawingOrder(cfg);
  }

  /** The variants of one feature share no shape. */
  lemma VariantsDisjoint(l: Layer, v: int, w: int)
    requires IsFeature(l) && v != w
    ensures forall s :: s in VariantShapes(l, v) ==> s !in VariantShapes(l, w)
  {
  }

  /**
   * At most one variant of each feature is drawn: no shape of a variant
   * other than the selected one appears anywhere in the render.
   */
  lemma OneVariantPerFeature(cfg: CookieConfig, l: Layer, w: int)
    requires IsFeature(l) && w != Selector(cfg, l)
    ensures forall s :: s in VariantShapes(l, w) ==> s !in Render(cfg)
  {
    VariantsDisjoint(l, Selector(cfg, l), w);
    assert Part(cfg, l) == VariantShapes(l, Selector(cfg, l));
    RenderLayer(cfg, l);
    forall s | s in VariantShapes(l, w) ensures s !in Render(cfg) {
      OnLayerKeeps(Render(cfg), s);
    }
  }

  /**
   * An unrecognised selector value silently draws nothing for its feature,
   * and the render is the fixed four base shapes plus the three features.
   */
  lemma UnknownSelectorDrawsNothing(cfg: CookieConfig, l: Layer)
    requires IsFeature(l)
    requires Selector(cfg, l) !in (if l == Accessory then {1, 2, 3} else {0, 1, 2})
    ensures OnLayer(Render(cfg), l) == []
  {
    RenderLayer(cfg, l);
  }
}
