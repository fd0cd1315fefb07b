/** The compositor. One repaint draws the base fill, the cover-fitted
    background image, every shown layer in list order, and the dashed outline
    of the selected layer. Pixels are not modelled: a repaint yields the
    sequence of draw records it issues. */
module Render {
  import opened Layers
  import opened Geometry

  /** The base fill: a flat colour, a dark gradient, or white with a random
      dot texture. */
  datatype Template = Classic | Dark | Blank

  /** One glyph, stroked and then filled, centred at `centerX` on the baseline row. */
  datatype Glyph = Glyph(ch: char, centerX: real)

  /** What a layer draws in its own translated and rotated frame. */
  datatype Figure =
    | FaceFigure(size: real)
    | ImageFigure(src: string, size: real)
    | TextFigure(fontPx: real, lineWidth: real, glyphs: seq<Glyph>)
    | Pending   // the face graphic or the image has not loaded: nothing is drawn

  datatype Op =
    | BaseFill(template: Template)
    | Cover(src: string, dest: Rect)
    | Paint(id: string, cx: real, cy: real, rotation: real, alpha: real, figure: Figure)
    | Outline(box: Rect)

  datatype ImageSize = ImageSize(width: real, height: real)

  /** What the browser has loaded when the repaint runs. */
  datatype Resources = Resources(
    faceReady: bool,
    imageReady: string -> bool,
    background: Option<ImageSize>)

  /** The state one repaint reads. */
  datatype Scene = Scene(
    canvas: Canvas,
    template: Template,
    activeBg: Option<string>,
    layers: seq<Layer>,
    selectedId: Option<string>)

  // ---------------------------------------------------------------------
  // Glyph layout

  /** The pen advance over `cs`: each glyph's measured width plus the spacing. */
  function Advance(env: Platform, fontPx: real, spacing: real, cs: string): real {
    if cs == [] then 0.0
    else env.measure(fontPx, [cs[0]]) + spacing + Advance(env, fontPx, spacing, cs[1..])
  }

  /** The sum of the glyphs' own measured widths. */
  function InkWidth(env: Platform, fontPx: real, cs: string): real {
    if cs == [] then 0.0 else env.measure(fontPx, [cs[0]]) + InkWidth(env, fontPx, cs[1..])
  }

  /** The glyphs of `cs` laid out from pen position `x`: one glyph per code
      point, in order. */
  function GlyphRun(env: Platform, fontPx: real, spacing: real, cs: string, x: real): (gs: seq<Glyph>)
    ensures |gs| == |cs|
  {
    if cs == [] then []
    else
      var w := env.measure(fontPx, [cs[0]]);
      [Glyph(cs[0], x + w / 2.0)] + GlyphRun(env, fontPx, spacing, cs[1..], x + w + spacing)
  }

  /** The run shows the string itself: glyph `i` carries code point `i`. */
  lemma {:induction false} GlyphRunChars(env: Platform, fontPx: real, spacing: real, cs: string, x: real)
    ensures var gs := GlyphRun(env, fontPx, spacing, cs, x);
      forall i :: 0 <= i < |cs| ==> gs[i].ch == cs[i]
  {
    if cs != [] {
      var w := env.measure(fontPx, [cs[0]]);
      GlyphRunChars(env, fontPx, spacing, cs[1..], x + w + spacing);
    }
  }

  /** The pen advance is the ink width plus one spacing per glyph. */
  lemma {:induction false} AdvanceIsInkPlusSpacing(env: Platform, fontPx: real, spacing: real, cs: string)
    ensures Advance(env, fontPx, spacing, cs) == InkWidth(env, fontPx, cs) + |cs| as real * spacing
  {
    if cs != [] {
      AdvanceIsInkPlusSpacing(env, fontPx, spacing, cs[1..]);
      assert (|cs[1..]| as real + 1.0) * spacing == |cs[1..]| as real * spacing + spacing;
    }
  }

  /** Glyph `k` is centred half its width past the advance of the glyphs before it. */
  lemma {:induction false} GlyphPosition(env: Platform, fontPx: real, spacing: real, cs: string, x: real, k: nat)
    requires k < |cs|
    ensures GlyphRun(env, fontPx, spacing, cs, x)[k].centerX
         == x + Advance(env, fontPx, spacing, cs[..k]) + env.measure(fontPx, [cs[k]]) / 2.0
  {
    var w := env.measure(fontPx, [cs[0]]);
    if k == 0 {
      assert cs[..0] == [];
    } else {
      GlyphPosition(env, fontPx, spacing, cs[1..], x + w + spacing, k - 1);
      assert cs[1..][k - 1] == cs[k];
      assert cs[..k][0] == cs[0] && cs[..k][1..] == cs[1..][..k - 1];
    }
  }

  /** The pen start of a text: `-(measureText(txt).width + (chars.length - 1) * letterSpacing) / 2`. */
  function TextStart(env: Platform, fontPx: real, txt: string, spacing: real): (x: real)
    ensures x <= 0.0 <==> TextRenderWidth(env, fontPx, txt, spacing) >= 0.0
    ensures x + TextRenderWidth(env, fontPx, txt, spacing) == -x
  {
    -TextRenderWidth(env, fontPx, txt, spacing) / 2.0
  }

  /** When the whole string measures as the sum of its glyphs, the laid-out
      text is centred on the layer: the last glyph ends where the first one
      starts, mirrored. */
  lemma TextCentred(env: Platform, fontPx: real, spacing: real, txt: string)
    requires txt != [] && env.measure(fontPx, txt) == InkWidth(env, fontPx, txt)
    ensures var start := TextStart(env, fontPx, txt, spacing);
      start + Advance(env, fontPx, spacing, txt) - spacing == -start
  {
    AdvanceIsInkPlusSpacing(env, fontPx, spacing, txt);
    var n := |txt| as real;
    assert (n - 1.0) * spacing == n * spacing - spacing;
  }

  /** One step of the layout: the run from glyph `k` is that glyph followed by the run after it. */
  lemma RunStep(env: Platform, fontPx: real, spacing: real, cs: string, k: nat, pen: real)
    requires k < |cs|
    ensures var w := env.measure(fontPx, [cs[k]]);
      GlyphRun(env, fontPx, spacing, cs[k..], pen)
        == [Glyph(cs[k], pen + w / 2.0)] + GlyphRun(env, fontPx, spacing, cs[k + 1..], pen + w + spacing)
      && Advance(env, fontPx, spacing, cs[k..]) == w + spacing + Advance(env, fontPx, spacing, cs[k + 1..])
  {
    assert cs[k..][0] == cs[k] && cs[k..][1..] == cs[k + 1..];
  }

  /** The glyph loop: measure each code point, draw it centred on the pen,
      advance the pen by its width plus the letter spacing. */
  method LayoutGlyphs(env: Platform, fontPx: real, spacing: real, cs: string, start: real)
    returns (glyphs: seq<Glyph>, pen: real)
    ensures glyphs == GlyphRun(env, fontPx, spacing, cs, start)
    ensures pen == start + Advance(env, fontPx, spacing, cs)
  {
    glyphs, pen := [], start;
    var k := 0;
    while k < |cs|
      invariant 0 <= k <= |cs|
      invariant glyphs + GlyphRun(env, fontPx, spacing, cs[k..], pen) == GlyphRun(env, fontPx, spacing, cs, start)
      invariant pen + Advance(env, fontPx, spacing, cs[k..]) == start + Advance(env, fontPx, spacing, cs)
    {
      var w := env.measure(fontPx, [cs[k]]);
      RunStep(env, fontPx, spacing, cs, k, pen);
      var g := Glyph(cs[k], pen + w / 2.0);
      ghost var rest := GlyphRun(env, fontPx, spacing, cs[k + 1..], pen + w + spacing);
      assert glyphs + ([g] + rest) == (glyphs + [g]) + rest;
      glyphs := glyphs + [g];
      pen := pen + w + spacing;
      k := k + 1;
    }
    assert cs[k..] == [];
  }

  // ---------------------------------------------------------------------
  // One layer

  /** What a shown layer draws. Face: the built-in graphic, once loaded.
      Image: the image, once complete. Text: glyph by glyph at the
      responsive font size, with the stroke width scaled the same way. */
  function FigureOf(l: Layer, c: Canvas, env: Platform, res: Resources): (f: Figure)
    ensures f.Pending? <==> (l.kind.Face? && !res.faceReady) || (l.kind.Image? && !res.imageReady(l.kind.src))
    ensures f.FaceFigure? <==> l.kind.Face? && res.faceReady
    ensures f.ImageFigure? ==> l.kind.Image? && f.src == l.kind.src
    ensures f.FaceFigure? || f.ImageFigure? ==> f.size == RenderSize(c, l.scale)
    ensures l.kind.Text? ==>
              f.TextFigure? && f.fontPx == FontPx(c, l.kind.fontSize) && f.fontPx >= 10.0
              && |f.glyphs| == |DisplayText(env, l.kind.text, l.kind.allCaps)|
  {
    var size := RenderSize(c, l.scale);
    match l.kind
    case Face => if res.faceReady then FaceFigure(size) else Pending
    case Image(src) => if res.imageReady(src) then ImageFigure(src, size) else Pending
    case Text(text, fontSize, strokePx, spacing, allCaps) =>
      var px := FontPx(c, fontSize);
      var txt := DisplayText(env, text, allCaps);
      TextFigure(px, strokePx * ScaleFactor(c), GlyphRun(env, px, spacing, txt, TextStart(env, px, txt, spacing)))
  }

  /** A layer's frame: translated to its centre, rotated, at its opacity. */
  function PaintOf(l: Layer, c: Canvas, env: Platform, res: Resources): (op: Op)
    ensures op.Paint? && op.id == l.id && op.alpha == l.opacity
  {
    Paint(l.id, c.width * l.x, c.height * l.y, RotationDeg(l), l.opacity, FigureOf(l, c, env, res))
  }

  /** A layer is painted at the centre of the box the hit test and the
      selection outline use. */
  lemma PaintAtBoxCentre(l: Layer, c: Canvas, env: Platform, res: Resources)
    ensures var op, box := PaintOf(l, c, env, res), LayerBox(l, c, env);
      op.cx == box.x + box.w / 2.0 && op.cy == box.y + box.h / 2.0
  {
  }

  /** A text layer shows its display string, glyph for glyph: upper-cased
      exactly when `allCaps` is set. */
  lemma TextShowsDisplayString(l: Layer, c: Canvas, env: Platform, res: Resources)
    requires l.kind.Text?
    ensures var f := FigureOf(l, c, env, res);
      var txt := if l.kind.allCaps then env.upper(l.kind.text) else l.kind.text;
      f.TextFigure? && |f.glyphs| == |txt| && forall i :: 0 <= i < |txt| ==> f.glyphs[i].ch == txt[i]
  {
    var px := FontPx(c, l.kind.fontSize);
    var txt := DisplayText(env, l.kind.text, l.kind.allCaps);
    GlyphRunChars(env, px, l.kind.letterSpacing, txt, TextStart(env, px, txt, l.kind.letterSpacing));
  }

  /** The layer loop: shown layers in list order, hidden ones skipped. */
  function LayerPaints(ls: seq<Layer>, c: Canvas, env: Platform, res: Resources): (ops: seq<Op>)
    ensures |ops| <= |ls|
    ensures forall k :: 0 <= k < |ops| ==> ops[k].Paint?
    ensures (forall l :: l in ls ==> Hidden(l)) ==> ops == []
  {
    if ls == [] then []
    else (if Hidden(ls[0]) then [] else [PaintOf(ls[0], c, env, res)]) + LayerPaints(ls[1..], c, env, res)
  }

  lemma {:induction false} LayerPaintsSnoc(ls: seq<Layer>, l: Layer, c: Canvas, env: Platform, res: Resources)
    ensures LayerPaints(ls + [l], c, env, res)
         == LayerPaints(ls, c, env, res) + (if Hidden(l) then [] else [PaintOf(l, c, env, res)])
  {
    if ls == [] {
      assert [l][1..] == [];
    } else {
      assert (ls + [l])[0] == ls[0] && (ls + [l])[1..] == ls[1..] + [l];
      LayerPaintsSnoc(ls[1..], l, c, env, res);
    }
  }

  /** The repaint draws exactly the shown layers, in list order, and nothing
      for a hidden one. */
  lemma {:induction false} PaintsShownInOrder(ls: seq<Layer>, c: Canvas, env: Platform, res: Resources)
    ensures var ps, shown := LayerPaints(ls, c, env, res), Keep(ls, Shown);
      |ps| == |shown| && forall k :: 0 <= k < |ps| ==> ps[k] == PaintOf(shown[k], c, env, res)
  {
    if ls != [] {
      PaintsShownInOrder(ls[1..], c, env, res);
    }
  }

  // ---------------------------------------------------------------------
  // The whole repaint

  /** `if (bgImg && activeBgURL)`: the cover-fitted background. */
  function BackgroundOps(s: Scene, res: Resources): (ops: seq<Op>)
    requires s.canvas.width > 0.0 && s.canvas.height > 0.0
    requires res.background.Some? ==> res.background.value.width > 0.0 && res.background.value.height > 0.0
    ensures |ops| <= 1
    ensures ops != [] <==> res.background.Some? && Truthy(s.activeBg)
    ensures ops != [] ==>
              ops[0].Cover? && ops[0].src == s.activeBg.value
              && ops[0].dest.w >= s.canvas.width && ops[0].dest.h >= s.canvas.height
  {
    if res.background.Some? && Truthy(s.activeBg) then
      [Cover(s.activeBg.value, CoverFit(s.canvas, res.background.value.width, res.background.value.height))]
    else []
  }

  /** `if (selected && selected.visible !== false)`: the outline around the
      selected layer's screen-space box, the same box the hit-test uses. */
  function OutlineOps(s: Scene, env: Platform): (ops: seq<Op>)
    ensures |ops| <= 1
    ensures s.selectedId.None? ==> ops == []
    ensures ops != [] ==> var sel := Find(s.layers, s.selectedId);
      sel.Some? && sel.value in s.layers && Shown(sel.value) && ops[0].Outline?
    ensures var sel := Find(s.layers, s.selectedId);
      sel.Some? && Shown(sel.value) ==> ops == [Outline(LayerBox(sel.value, s.canvas, env))]
  {
    var selected := Find(s.layers, s.selectedId);
    if selected.Some? && !Hidden(selected.value) then [Outline(LayerBox(selected.value, s.canvas, env))]
    else []
  }

  /** The draw records of one repaint, in order. */
  function Frame(s: Scene, env: Platform, res: Resources): (ops: seq<Op>)
    requires s.canvas.width > 0.0 && s.canvas.height > 0.0
    requires res.background.Some? ==> res.background.value.width > 0.0 && res.background.value.height > 0.0
    ensures 1 <= |ops| <= |s.layers| + 3
    ensures ops[0] == BaseFill(s.template)
    ensures forall k :: 1 <= k < |ops| ==> !ops[k].BaseFill?
  {
    [BaseFill(s.template)] + BackgroundOps(s, res) + LayerPaints(s.layers, s.canvas, env, res) + OutlineOps(s, env)
  }

  /** One shown layer: translate, rotate, set the alpha, then draw its figure. */
  method PaintLayer(l: Layer, c: Canvas, env: Platform, res: Resources) returns (op: Op)
    ensures op == PaintOf(l, c, env, res)
  {
    var size := RenderSize(c, l.scale);
    var figure: Figure;
    match l.kind {
      case Face =>
        figure := if res.faceReady then FaceFigure(size) else Pending;
      case Image(src) =>
        figure := if res.imageReady(src) then ImageFigure(src, size) else Pending;
      case Text(text, fontSize, strokePx, spacing, allCaps) =>
        var px := FontPx(c, fontSize);
        var txt := DisplayText(env, text, allCaps);
        var glyphs, _ := LayoutGlyphs(env, px, spacing, txt, TextStart(env, px, txt, spacing));
        figure := TextFigure(px, strokePx * ScaleFactor(c), glyphs);
        assert figure == FigureOf(l, c, env, res);
    }
    op := Paint(l.id, c.width * l.x, c.height * l.y, RotationDeg(l), l.opacity, figure);
  }

  /** The layer loop: each layer in list order, a hidden one skipped. */
  method PaintLayers(ls: seq<Layer>, c: Canvas, env: Platform, res: Resources) returns (ops: seq<Op>)
    ensures ops == LayerPaints(ls, c, env, res)
  {
    ops := [];
    for i := 0 to |ls|
      invariant ops == LayerPaints(ls[..i], c, env, res)
    {
      var l := ls[i];
      assert ls[..i + 1] == ls[..i] + [l];
      LayerPaintsSnoc(ls[..i], l, c, env, res);
      if Hidden(l) {
        assert LayerPaints(ls[..i + 1], c, env, res) == LayerPaints(ls[..i], c, env, res) + [];
        continue;
      }
      var op := PaintLayer(l, c, env, res);
      ops := ops + [op];
    }
    assert ls[..|ls|] == ls;
  }

  /** The render effect: repaints the whole canvas from the scene. */
  method Repaint(s: Scene, env: Platform, res: Resources) returns (ops: seq<Op>)
    requires s.canvas.width > 0.0 && s.canvas.height > 0.0
    requires res.background.Some? ==> res.background.value.width > 0.0 && res.background.value.height > 0.0
    ensures ops == Frame(s, env, res)
  {
    var c := s.canvas;
    ops := [BaseFill(s.template)];
    if res.background.Some? && Truthy(s.activeBg) {
      var img := res.background.value;
      ops := ops + [Cover(s.activeBg.value, CoverFit(c, img.width, img.height))];
    }
    assert ops == [BaseFill(s.template)] + BackgroundOps(s, res);
    var paints := PaintLayers(s.layers, c, env, res);
    ops := ops + paints;
    var selected := Find(s.layers, s.selectedId);
    if selected.Some? && !Hidden(selected.value) {
      ops := ops + [Outline(LayerBox(selected.value, c, env))];
    }
    assert ops == [BaseFill(s.template)] + BackgroundOps(s, res) + LayerPaints(s.layers, c, env, res) + OutlineOps(s, env);
  }
}
