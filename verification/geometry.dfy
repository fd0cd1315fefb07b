/** Canvas geometry shared by the compositor and the hit-test: layer sizes,
    the responsive font size, the screen-space box of a (rotated) layer, the
    cover-fit of the background image, the canvas size floor and background
    precedence. Trigonometry, text measurement and upper-casing are host
    services and enter as parameters. */
module Geometry {
  import opened Layers

  /** Host services. `cos` and `sin` take an angle in degrees; `measure`
      gives the advance width of a string at a font size in pixels. */
  datatype Platform = Platform(
    cos: real -> real,
    sin: real -> real,
    measure: (real, string) -> real,
    upper: string -> string)

  datatype Canvas = Canvas(width: real, height: real)

  datatype Point = Point(x: real, y: real)

  /** A rectangle as the source's `box`: left, top, width, height. */
  datatype Rect = Rect(x: real, y: real, w: real, h: real)

  function Min(a: real, b: real): real { if a <= b then a else b }

  function Max(a: real, b: real): real { if a >= b then a else b }

  function Abs(a: real): real { if a >= 0.0 then a else -a }

  function Min4(a: real, b: real, c: real, d: real): real { Min(Min(a, b), Min(c, d)) }

  function Max4(a: real, b: real, c: real, d: real): real { Max(Max(a, b), Max(c, d)) }

  /** `minDim`, the shorter canvas side. */
  function MinDim(c: Canvas): real { Min(c.width, c.height) }

  // ---------------------------------------------------------------------
  // Sizes

  /** `scale || 1`: a zero scale falls back to 1. */
  function EffectiveScale(scale: real): real { if scale == 0.0 then 1.0 else scale }

  /** `minDim * (scale || 1)`: the square size of a face or image layer. */
  function RenderSize(c: Canvas, scale: real): (size: real)
    ensures scale != 0.0 ==> size == scale * MinDim(c)
    ensures scale == 0.0 ==> size == MinDim(c)
  {
    MinDim(c) * EffectiveScale(scale)
  }

  /** The size depends on the shorter side only, whichever axis it lies on. */
  lemma RenderSizeShorterSide(w: real, h: real, scale: real)
    ensures RenderSize(Canvas(w, h), scale) == RenderSize(Canvas(h, w), scale)
    ensures w >= h ==> RenderSize(Canvas(w, h), scale) == RenderSize(Canvas(h, h), scale)
  {
  }

  /** `Math.min(width, height) / 1024`: metrics are given for a 1024 px canvas. */
  function ScaleFactor(c: Canvas): real { MinDim(c) / 1024.0 }

  /** `Math.max(10, fontSize * scaleFactor)`: the responsive font size in pixels. */
  function FontPx(c: Canvas, fontSize: real): (px: real)
    ensures px >= 10.0
    ensures px >= fontSize * ScaleFactor(c)
    ensures px == 10.0 || px == fontSize * ScaleFactor(c)
  {
    Max(10.0, fontSize * ScaleFactor(c))
  }

  /** On a canvas whose shorter side is the 1024 px reference, a font size of
      at least 10 is used as it is. */
  lemma FontPxAtReference(c: Canvas, fontSize: real)
    requires MinDim(c) == 1024.0 && fontSize >= 10.0
    ensures FontPx(c, fontSize) == fontSize
  {
  }

  /** A larger canvas never gives a smaller font. */
  lemma FontPxMonotone(c: Canvas, d: Canvas, fontSize: real)
    requires 0.0 <= fontSize && MinDim(c) <= MinDim(d)
    ensures FontPx(c, fontSize) <= FontPx(d, fontSize)
  {
    assert fontSize * MinDim(c) <= fontSize * MinDim(d);
  }

  // ---------------------------------------------------------------------
  // Text extents

  /** `txt.length`: the number of UTF-16 code units of a string of code points. */
  function Utf16Length(s: string): (n: nat)
    ensures n >= |s|
  {
    if s == [] then 0
    else (if s[0] as int > 0xFFFF then 2 else 1) + Utf16Length(s[1..])
  }

  /** Each character outside the Basic Multilingual Plane takes two units
      (a surrogate pair); all others take one. */
  lemma {:induction false} Utf16LengthExact(s: string)
    ensures Utf16Length(s) == |s| <==> forall i :: 0 <= i < |s| ==> s[i] as int <= 0xFFFF
  {
    if s != [] {
      Utf16LengthExact(s[1..]);
      assert forall i :: 1 <= i < |s| ==> s[i] == s[1..][i - 1];
    }
  }

  /** `allCaps ? text.toUpperCase() : text`: the string displayed; the stored
      text is never rewritten. */
  function DisplayText(env: Platform, text: string, allCaps: bool): (txt: string)
    ensures allCaps ==> txt == env.upper(text)
    ensures !allCaps ==> txt == text
  {
    if allCaps then env.upper(text) else text
  }

  /** Width the selection box and the hit-test give a text:
      `measureText(txt).width + (txt.length - 1) * letterSpacing`, counting UTF-16 units. */
  function TextBoxWidth(env: Platform, fontPx: real, txt: string, letterSpacing: real): (w: real)
    ensures letterSpacing == 0.0 || Utf16Length(txt) == 1 ==> w == env.measure(fontPx, txt)
    ensures letterSpacing >= 0.0 && txt != [] ==> w >= env.measure(fontPx, txt)
  {
    env.measure(fontPx, txt) + (Utf16Length(txt) as real - 1.0) * letterSpacing
  }

  /** Width the compositor lays the glyphs out in: the same formula over
      `[...txt].length`, the number of code points. */
  function TextRenderWidth(env: Platform, fontPx: real, txt: string, letterSpacing: real): (w: real)
    ensures letterSpacing == 0.0 || |txt| == 1 ==> w == env.measure(fontPx, txt)
    ensures letterSpacing >= 0.0 && txt != [] ==> w >= env.measure(fontPx, txt)
  {
    env.measure(fontPx, txt) + (|txt| as real - 1.0) * letterSpacing
  }

  /** The two widths agree exactly when there is no letter spacing or the text
      has no character outside the Basic Multilingual Plane; otherwise they
      differ by the spacing once per such character: the box is wider for a
      positive spacing and narrower for a negative one. */
  lemma {:induction false} TextWidthsAgree(env: Platform, fontPx: real, txt: string, letterSpacing: real)
    ensures TextBoxWidth(env, fontPx, txt, letterSpacing) - TextRenderWidth(env, fontPx, txt, letterSpacing)
         == (Utf16Length(txt) - |txt|) as real * letterSpacing
    ensures TextBoxWidth(env, fontPx, txt, letterSpacing) == TextRenderWidth(env, fontPx, txt, letterSpacing)
        <==> letterSpacing == 0.0 || forall i :: 0 <= i < |txt| ==> txt[i] as int <= 0xFFFF
  {
    var n16, n := Utf16Length(txt), |txt|;
    WidthGap(n16 as real, n as real, env.measure(fontPx, txt), letterSpacing,
             TextBoxWidth(env, fontPx, txt, letterSpacing), TextRenderWidth(env, fontPx, txt, letterSpacing));
    assert (n16 - n) as real == n16 as real - n as real;
    Utf16LengthExact(txt);
  }

  /** The arithmetic of two widths that differ only in their glyph count. */
  lemma WidthGap(a: real, b: real, m: real, k: real, bw: real, rw: real)
    requires bw == m + (a - 1.0) * k && rw == m + (b - 1.0) * k
    ensures bw - rw == (a - b) * k
    ensures bw == rw <==> a == b || k == 0.0
  {
    ZeroProduct(a - b, k);
  }

  lemma ZeroProduct(d: real, k: real)
    ensures d * k == 0.0 <==> d == 0.0 || k == 0.0
  {
    if d != 0.0 && k != 0.0 {
      if d > 0.0 && k > 0.0 { assert d * k > 0.0; }
      else if d > 0.0 { assert d * (-k) > 0.0; }
      else if k > 0.0 { assert (-d) * k > 0.0; }
      else { assert (-d) * (-k) > 0.0; }
    }
  }

  /** Two emoji with a letter spacing of 10: the selection box is 20 px wider
      than the text drawn. */
  lemma EmojiBoxWiderThanText(env: Platform, fontPx: real)
    ensures var txt := "\U{1F600}\U{1F600}";
      TextBoxWidth(env, fontPx, txt, 10.0) == TextRenderWidth(env, fontPx, txt, 10.0) + 20.0
  {
    var txt := "\U{1F600}\U{1F600}";
    assert Utf16Length(txt[1..]) == 2 by { assert txt[1..][1..] == []; }
    assert Utf16Length(txt) == 4;
  }

  /** The unrotated extent of a layer: full width and height. */
  datatype Extent = Extent(w: real, h: real)

  /** `rotation || 0`. */
  function RotationDeg(l: Layer): real {
    match l.rotation
    case Some(r) => r
    case None => 0.0
  }

  /** Text layers: the measured box width and `fontPx * 1.35`; face and image
      layers: the square render size. */
  function LayerExtent(l: Layer, c: Canvas, env: Platform): (e: Extent)
    ensures !l.kind.Text? ==> e.w == e.h == RenderSize(c, l.scale)
    ensures l.kind.Text? ==> e.h >= 13.5
    ensures l.kind.Text? ==>
      var px := FontPx(c, l.kind.fontSize);
      e.h == px * 1.35
      && e.w == TextBoxWidth(env, px, DisplayText(env, l.kind.text, l.kind.allCaps), l.kind.letterSpacing)
  {
    match l.kind
    case Text(text, fontSize, _, letterSpacing, allCaps) =>
      var px := FontPx(c, fontSize);
      Extent(TextBoxWidth(env, px, DisplayText(env, text, allCaps), letterSpacing), px * 1.35)
    case _ =>
      var size := RenderSize(c, l.scale);
      Extent(size, size)
  }

  // ---------------------------------------------------------------------
  // The box from the four rotated corners

  /** Minimum and maximum of four points symmetric about `c`. */
  lemma SymmetricSpan(c: real, p: real, q: real)
    ensures Min4(c - q, c + p, c + q, c - p) + Max4(c - q, c + p, c + q, c - p) == 2.0 * c
    ensures Max4(c - q, c + p, c + q, c - p) - Min4(c - q, c + p, c + q, c - p)
         == 2.0 * Max(Abs(p), Abs(q))
  {
  }

  /** The axis-aligned box around the corners `(±hw, ±hh)` rotated by the
      angle whose cosine and sine are given and moved to `(cx, cy)`. It is
      centred on `(cx, cy)` and never inverted. */
  function CornerBox(cx: real, cy: real, hw: real, hh: real, cos: real, sin: real): (r: Rect)
    ensures r.w >= 0.0 && r.h >= 0.0
    ensures r.x + r.w / 2.0 == cx && r.y + r.h / 2.0 == cy
    ensures r.w == 2.0 * Max(Abs(hw * cos + hh * sin), Abs(hw * cos - hh * sin))
    ensures r.h == 2.0 * Max(Abs(hw * sin + hh * cos), Abs(hw * sin - hh * cos))
  {
    var p, q := hw * cos + hh * sin, hw * cos - hh * sin;
    var p', q' := hw * sin + hh * cos, hw * sin - hh * cos;
    var x0, x1, x2, x3 := cx + (-hw) * cos - (-hh) * sin, cx + hw * cos - (-hh) * sin,
                          cx + hw * cos - hh * sin, cx + (-hw) * cos - hh * sin;
    var y0, y1, y2, y3 := cy + (-hw) * sin + (-hh) * cos, cy + hw * sin + (-hh) * cos,
                          cy + hw * sin + hh * cos, cy + (-hw) * sin + hh * cos;
    assert x0 == cx - q && x1 == cx + p && x2 == cx + q && x3 == cx - p;
    assert y0 == cy - p' && y1 == cy + q' && y2 == cy + p' && y3 == cy - q';
    SymmetricSpan(cx, p, q);
    SymmetricSpan(cy, q', p');
    var minX, maxX := Min4(x0, x1, x2, x3), Max4(x0, x1, x2, x3);
    var minY, maxY := Min4(y0, y1, y2, y3), Max4(y0, y1, y2, y3);
    Rect(minX, minY, maxX - minX, maxY - minY)
  }

  /** Without rotation the box is exactly the layer's extent around its centre. */
  lemma UnrotatedBox(cx: real, cy: real, hw: real, hh: real)
    ensures CornerBox(cx, cy, hw, hh, 1.0, 0.0)
         == Rect(cx - Abs(hw), cy - Abs(hh), 2.0 * Abs(hw), 2.0 * Abs(hh))
  {
    var r := CornerBox(cx, cy, hw, hh, 1.0, 0.0);
    assert r.w == 2.0 * Abs(hw);
    assert r.h == 2.0 * Abs(hh);
  }

  /** Rotation never makes the box smaller in area than the unrotated extent. */
  lemma RotationNeverShrinksArea(cx: real, cy: real, hw: real, hh: real, cos: real, sin: real)
    requires hw >= 0.0 && hh >= 0.0 && cos * cos + sin * sin == 1.0
    ensures var r := CornerBox(cx, cy, hw, hh, cos, sin);
      r.w * r.h >= (2.0 * hw) * (2.0 * hh)
  {
    var r := CornerBox(cx, cy, hw, hh, cos, sin);
    RotatedBoxSize(cx, cy, hw, hh, cos, sin);
    AreaOfRotatedSides(hw, hh, cos, sin, r.w, r.h);
  }

  lemma AreaOfRotatedSides(hw: real, hh: real, cos: real, sin: real, w: real, h: real)
    requires hw >= 0.0 && hh >= 0.0 && cos * cos + sin * sin == 1.0
    requires w == 2.0 * (hw * Abs(cos) + hh * Abs(sin)) && h == 2.0 * (hw * Abs(sin) + hh * Abs(cos))
    ensures w * h >= (2.0 * hw) * (2.0 * hh)
  {
    UnitAbs(cos, sin);
    AreaFromSides(w, h, hw, hh, Abs(cos), Abs(sin));
  }

  lemma UnitAbs(cos: real, sin: real)
    requires cos * cos + sin * sin == 1.0
    ensures Abs(cos) >= 0.0 && Abs(sin) >= 0.0 && Abs(cos) * Abs(cos) + Abs(sin) * Abs(sin) == 1.0
  {
    AbsSquare(cos);
    AbsSquare(sin);
  }

  lemma AreaFromSides(w: real, h: real, hw: real, hh: real, c: real, s: real)
    requires hw >= 0.0 && hh >= 0.0 && c >= 0.0 && s >= 0.0 && c * c + s * s == 1.0
    requires w == 2.0 * (hw * c + hh * s) && h == 2.0 * (hw * s + hh * c)
    ensures w * h >= (2.0 * hw) * (2.0 * hh)
  {
    AreaBound(hw, hh, c, s);
    ScaledProduct(hw * c + hh * s, hw * s + hh * c, hw, hh);
  }

  /** For a non-negative extent the box's sides are `2(hw|cos| + hh|sin|)` and `2(hw|sin| + hh|cos|)`. */
  lemma RotatedBoxSize(cx: real, cy: real, hw: real, hh: real, cos: real, sin: real)
    requires hw >= 0.0 && hh >= 0.0
    ensures var r := CornerBox(cx, cy, hw, hh, cos, sin);
      r.w == 2.0 * (hw * Abs(cos) + hh * Abs(sin)) && r.h == 2.0 * (hw * Abs(sin) + hh * Abs(cos))
  {
    MaxAbsSumDiff(hw * cos, hh * sin);
    MaxAbsSumDiff(hw * sin, hh * cos);
    AbsMul(hw, cos); AbsMul(hh, sin); AbsMul(hw, sin); AbsMul(hh, cos);
  }

  lemma AbsSquare(t: real)
    ensures Abs(t) * Abs(t) == t * t
  {
  }

  lemma ScaledProduct(u: real, v: real, hw: real, hh: real)
    requires u * v >= hw * hh
    ensures (2.0 * u) * (2.0 * v) >= (2.0 * hw) * (2.0 * hh)
  {
  }

  /** The arithmetic core of the area bound, for non-negative cosine and sine magnitudes. */
  lemma AreaBound(hw: real, hh: real, c: real, s: real)
    requires hw >= 0.0 && hh >= 0.0 && c >= 0.0 && s >= 0.0 && c * c + s * s == 1.0
    ensures (hw * c + hh * s) * (hw * s + hh * c) >= hw * hh
  {
    assert (hw * c + hh * s) * (hw * s + hh * c)
        == hw * hh * (c * c + s * s) + c * s * (hw * hw + hh * hh);
    assert c * s >= 0.0 && hw * hw + hh * hh >= 0.0;
    assert c * s * (hw * hw + hh * hh) >= 0.0;
  }

  lemma MaxAbsSumDiff(u: real, v: real)
    ensures Max(Abs(u + v), Abs(u - v)) == Abs(u) + Abs(v)
  {
  }

  lemma AbsMul(k: real, t: real)
    requires k >= 0.0
    ensures Abs(k * t) == k * Abs(t)
  {
    if t < 0.0 { assert k * t == -(k * Abs(t)); }
  }

  /** The screen-space box of a layer, used both for the selection outline
      and for the hit-test. */
  function LayerBox(l: Layer, c: Canvas, env: Platform): (r: Rect)
    ensures r.w >= 0.0 && r.h >= 0.0
    ensures r.x + r.w / 2.0 == c.width * l.x && r.y + r.h / 2.0 == c.height * l.y
  {
    var e := LayerExtent(l, c, env);
    var deg := RotationDeg(l);
    CornerBox(c.width * l.x, c.height * l.y, e.w / 2.0, e.h / 2.0, env.cos(deg), env.sin(deg))
  }

  /** `cx >= box.x && cx <= box.x + box.w && cy >= box.y && cy <= box.y + box.h`:
      the point lies within half the box's size of its centre on both axes. */
  predicate Contains(r: Rect, pt: Point): (b: bool)
    ensures b <==> Abs(pt.x - (r.x + r.w / 2.0)) <= r.w / 2.0 && Abs(pt.y - (r.y + r.h / 2.0)) <= r.h / 2.0
  {
    pt.x >= r.x && pt.x <= r.x + r.w && pt.y >= r.y && pt.y <= r.y + r.h
  }

  /** For an unrotated text layer, the hit box is exactly as wide as the
      UTF-16 box width, so it differs from the width the glyphs are laid out
      in by the spacing once per character outside the Basic Multilingual
      Plane. */
  lemma TextHitBoxGap(l: Layer, c: Canvas, env: Platform)
    requires l.kind.Text? && RotationDeg(l) == 0.0 && env.cos(0.0) == 1.0 && env.sin(0.0) == 0.0
    ensures var px := FontPx(c, l.kind.fontSize);
      var txt := DisplayText(env, l.kind.text, l.kind.allCaps);
      var box := LayerBox(l, c, env);
      box.w == Abs(TextBoxWidth(env, px, txt, l.kind.letterSpacing))
      && (TextBoxWidth(env, px, txt, l.kind.letterSpacing) >= 0.0 ==>
            box.w - TextRenderWidth(env, px, txt, l.kind.letterSpacing)
              == (Utf16Length(txt) - |txt|) as real * l.kind.letterSpacing)
  {
    var px := FontPx(c, l.kind.fontSize);
    var txt := DisplayText(env, l.kind.text, l.kind.allCaps);
    var e := LayerExtent(l, c, env);
    assert LayerBox(l, c, env) == CornerBox(c.width * l.x, c.height * l.y, e.w / 2.0, e.h / 2.0, 1.0, 0.0);
    UnrotatedBox(c.width * l.x, c.height * l.y, e.w / 2.0, e.h / 2.0);
    assert 2.0 * Abs(e.w / 2.0) == Abs(e.w);
    TextWidthsAgree(env, px, txt, l.kind.letterSpacing);
  }

  /** An unrotated face or image layer is hit exactly inside its square,
      borders included. */
  lemma UnrotatedSquareHit(l: Layer, c: Canvas, env: Platform, pt: Point)
    requires !l.kind.Text? && RotationDeg(l) == 0.0 && env.cos(0.0) == 1.0 && env.sin(0.0) == 0.0
    ensures var half := Abs(RenderSize(c, l.scale)) / 2.0;
      Contains(LayerBox(l, c, env), pt) <==>
        c.width * l.x - half <= pt.x <= c.width * l.x + half &&
        c.height * l.y - half <= pt.y <= c.height * l.y + half
  {
    var s := RenderSize(c, l.scale);
    var cx, cy := c.width * l.x, c.height * l.y;
    var e := LayerExtent(l, c, env);
    assert e == Extent(s, s);
    assert LayerBox(l, c, env) == CornerBox(cx, cy, s / 2.0, s / 2.0, 1.0, 0.0);
    UnrotatedBox(cx, cy, s / 2.0, s / 2.0);
    assert Abs(s / 2.0) == Abs(s) / 2.0;
  }

  // ---------------------------------------------------------------------
  // Background

  /** The cover-fit of an `iw` x `ih` background image:
      `r = max(width/iw, height/ih)`, drawn at `((width-dw)/2, (height-dh)/2)`
      with size `(iw*r, ih*r)`. The image covers the canvas, is centred on it,
      keeps its aspect ratio, and fits one side exactly. */
  function CoverFit(c: Canvas, iw: real, ih: real): (d: Rect)
    requires c.width > 0.0 && c.height > 0.0 && iw > 0.0 && ih > 0.0
    ensures d.w >= c.width && d.h >= c.height
    ensures d.w == c.width || d.h == c.height
    ensures d.x <= 0.0 && d.y <= 0.0
    ensures d.x + d.w / 2.0 == c.width / 2.0 && d.y + d.h / 2.0 == c.height / 2.0
    ensures d.w * ih == d.h * iw
  {
    var r := Max(c.width / iw, c.height / ih);
    var dw, dh := iw * r, ih * r;
    assert iw * (c.width / iw) == c.width;
    assert ih * (c.height / ih) == c.height;
    assert dw >= c.width by { assert r >= c.width / iw; }
    assert dh >= c.height by { assert r >= c.height / ih; }
    Rect((c.width - dw) / 2.0, (c.height - dh) / 2.0, dw, dh)
  }

  /** `value || fallback` for an optional string: absent and empty are falsy. */
  predicate Truthy(s: Option<string>) { s.Some? && s.value != "" }

  /** `bgUploadURL || bgTemplateURL`: an upload wins over a template. */
  function ActiveBackground(upload: Option<string>, template: Option<string>): (bg: Option<string>)
    ensures Truthy(upload) ==> bg == upload
    ensures !Truthy(upload) ==> bg == template
  {
    if Truthy(upload) then upload else template
  }

  /** Uploading over a chosen template shows the upload; clearing the upload
      goes back to that template, not to no background. */
  lemma UploadOverTemplate(template: string, upload: string)
    requires upload != ""
    ensures ActiveBackground(Some(upload), Some(template)) == Some(upload)
    ensures ActiveBackground(None, Some(template)) == Some(template)
  {
  }

  /** `Math.max(256, Number(value) || 0)`; `None` stands for a value that is
      not a number. */
  function ClampDimension(v: Option<real>): (r: real)
    ensures r >= 256.0
    ensures v.Some? && v.value >= 256.0 ==> r == v.value
    ensures v.None? || v.value <= 256.0 ==> r == 256.0
  {
    match v
    case Some(n) => Max(256.0, n)
    case None => Max(256.0, 0.0)
  }
}
