/** The editor: its state (canvas size, backgrounds, the layer list, the
    selection and the drag in progress) and the handlers that change it. */
module App {
  import opened Layers
  import opened Geometry
  import opened Render

  // ---------------------------------------------------------------------
  // Hit-testing

  /** A layer is hit when it is shown and its screen-space box contains the
      pointer, borders included. */
  predicate Hits(l: Layer, c: Canvas, env: Platform, pt: Point): (b: bool)
    ensures b <==>
              Shown(l)
              && Abs(pt.x - c.width * l.x) <= LayerBox(l, c, env).w / 2.0
              && Abs(pt.y - c.height * l.y) <= LayerBox(l, c, env).h / 2.0
  {
    Shown(l) && Contains(LayerBox(l, c, env), pt)
  }

  /** A shown layer is hit at its own centre, whatever its size or rotation. */
  lemma CentreIsHit(l: Layer, c: Canvas, env: Platform)
    requires Shown(l)
    ensures Hits(l, c, env, Point(c.width * l.x, c.height * l.y))
  {
    var box := LayerBox(l, c, env);
    assert Abs(c.width * l.x - c.width * l.x) == 0.0 <= box.w / 2.0;
    assert Abs(c.height * l.y - c.height * l.y) == 0.0 <= box.h / 2.0;
  }

  /** The topmost layer among the first `n` that is hit: the highest index
      below `n`, or `None` when none of them is hit. */
  function TopHit(ls: seq<Layer>, c: Canvas, env: Platform, pt: Point, n: nat): (r: Option<nat>)
    requires n <= |ls|
    ensures r.Some? ==> r.value < n && Hits(ls[r.value], c, env, pt)
    ensures r.Some? ==> forall j :: r.value < j < n ==> !Hits(ls[j], c, env, pt)
    ensures r.None? ==> forall j :: 0 <= j < n ==> !Hits(ls[j], c, env, pt)
  {
    if n == 0 then None
    else if Hits(ls[n - 1], c, env, pt) then Some(n - 1)
    else TopHit(ls, c, env, pt, n - 1)
  }

  /** Whatever layer is hit, the one chosen is at least as high in the
      z-order; a hidden layer is never chosen. */
  lemma TopmostWins(ls: seq<Layer>, c: Canvas, env: Platform, pt: Point, j: nat)
    requires j < |ls| && Hits(ls[j], c, env, pt)
    ensures var r := TopHit(ls, c, env, pt, |ls|);
      r.Some? && j <= r.value && Shown(ls[r.value])
  {
  }

  /** The downward search passes over a hidden layer: it is never the
      answer, and the search continues below it as if it were absent. */
  lemma {:induction false} HiddenSkipped(ls: seq<Layer>, c: Canvas, env: Platform, pt: Point, n: nat)
    requires n < |ls| && Hidden(ls[n])
    ensures TopHit(ls, c, env, pt, n + 1) == TopHit(ls, c, env, pt, n)
  {
  }

  // ---------------------------------------------------------------------
  // Pointer coordinates

  /** The canvas element's bounding rectangle on the page, in CSS pixels.
      The stylesheet lets the element shrink below its pixel size to fit its
      column, so `cssWidth` may be smaller than the canvas width. */
  datatype Viewport = Viewport(left: real, top: real, cssWidth: real, cssHeight: real)

  /** As written: `clientX - rect.left`, `clientY - rect.top`. This is an
      offset in CSS pixels, yet the handlers compare it with boxes and
      divide it by sizes that are in canvas pixels. */
  function ClientOffset(vp: Viewport, client: Point): (pt: Point)
    ensures pt.x + vp.left == client.x && pt.y + vp.top == client.y
  {
    Point(client.x - vp.left, client.y - vp.top)
  }

  /** Corrected: the CSS offset scaled by the canvas's pixel size over its
      displayed size. This is the `pt` the pointer handlers below take. */
  function CanvasOffset(vp: Viewport, c: Canvas, client: Point): (pt: Point)
    requires vp.cssWidth > 0.0 && vp.cssHeight > 0.0
    ensures pt.x * vp.cssWidth == (client.x - vp.left) * c.width
    ensures pt.y * vp.cssHeight == (client.y - vp.top) * c.height
  {
    Point((client.x - vp.left) * c.width / vp.cssWidth, (client.y - vp.top) * c.height / vp.cssHeight)
  }

  /** Where on the page the canvas pixel `p` is displayed. */
  function Displayed(vp: Viewport, c: Canvas, p: Point): (client: Point)
    requires c.width > 0.0 && c.height > 0.0
    ensures (client.x - vp.left) * c.width == p.x * vp.cssWidth
    ensures (client.y - vp.top) * c.height == p.y * vp.cssHeight
  {
    Point(vp.left + p.x * vp.cssWidth / c.width, vp.top + p.y * vp.cssHeight / c.height)
  }

  /** The corrected offset undoes the display: a click on the place where
      canvas pixel `p` is shown lands on `p`. */
  lemma CanvasOffsetInverts(vp: Viewport, c: Canvas, p: Point)
    requires vp.cssWidth > 0.0 && vp.cssHeight > 0.0 && c.width > 0.0 && c.height > 0.0
    ensures CanvasOffset(vp, c, Displayed(vp, c, p)) == p
  {
    var q := CanvasOffset(vp, c, Displayed(vp, c, p));
    CancelFactor(q.x, p.x, vp.cssWidth);
    CancelFactor(q.y, p.y, vp.cssHeight);
  }

  lemma CancelFactor(q: real, p: real, k: real)
    requires k != 0.0 && q * k == p * k
    ensures q == p
  {
    assert (q - p) * k == 0.0;
  }

  /** When the canvas is shown at its own size, both offsets agree. */
  lemma OffsetsAgreeUnscaled(vp: Viewport, c: Canvas, client: Point)
    requires vp.cssWidth > 0.0 && vp.cssHeight > 0.0
    requires vp.cssWidth == c.width && vp.cssHeight == c.height
    ensures ClientOffset(vp, client) == CanvasOffset(vp, c, client)
  {
  }

  /** With the corrected offset, a click on the displayed centre of a shown
      layer hits that layer, however the canvas is scaled on the page. */
  lemma DisplayedCentreIsHit(vp: Viewport, l: Layer, c: Canvas, env: Platform)
    requires vp.cssWidth > 0.0 && vp.cssHeight > 0.0 && c.width > 0.0 && c.height > 0.0
    requires Shown(l)
    ensures Hits(l, c, env, CanvasOffset(vp, c, Displayed(vp, c, Point(c.width * l.x, c.height * l.y))))
  {
    CanvasOffsetInverts(vp, c, Point(c.width * l.x, c.height * l.y));
    CentreIsHit(l, c, env);
  }

  /** As written, the same click misses: a 1024 x 1024 canvas shown at
      512 x 512 CSS pixels, and an unrotated face at (0.75, 0.75) of scale
      0.2, whose box spans 665.6 to 870.4 on both axes. Its displayed centre
      is 384 CSS pixels from the corner, which the handler reads as canvas
      pixel 384. */
  lemma ClientOffsetMissesScaledCanvas()
    ensures var c := Canvas(1024.0, 1024.0);
      var vp := Viewport(0.0, 0.0, 512.0, 512.0);
      var env := Platform(a => 1.0, a => 0.0, (px, t) => 0.0, t => t);
      var l := Layer("f", "face", 0.75, 0.75, 0.2, 1.0, None, None, Face);
      var client := Displayed(vp, c, Point(c.width * l.x, c.height * l.y));
      !Hits(l, c, env, ClientOffset(vp, client))
      && Hits(l, c, env, CanvasOffset(vp, c, client))
  {
    var c := Canvas(1024.0, 1024.0);
    var vp := Viewport(0.0, 0.0, 512.0, 512.0);
    var env := Platform(a => 1.0, a => 0.0, (px, t) => 0.0, t => t);
    var l := Layer("f", "face", 0.75, 0.75, 0.2, 1.0, None, None, Face);
    var client := Displayed(vp, c, Point(c.width * l.x, c.height * l.y));
    assert client == Point(384.0, 384.0);
    UnrotatedSquareHit(l, c, env, ClientOffset(vp, client));
    assert RenderSize(c, l.scale) == 204.8;
    DisplayedCentreIsHit(vp, l, c, env);
  }

  // ---------------------------------------------------------------------
  // Dragging

  /** `dragState.current`: the grabbed layer's id and the pointer's offset
      from the centre of that layer's box. */
  datatype Drag = Drag(id: string, offX: real, offY: real)

  /** The drag recorded when `pt` hits layer `l`: the offset from the
      centre of its box, which is the layer's own centre. */
  function Grab(l: Layer, c: Canvas, env: Platform, pt: Point): (d: Drag)
    ensures d.id == l.id
    ensures d.offX == pt.x - c.width * l.x && d.offY == pt.y - c.height * l.y
  {
    var box := LayerBox(l, c, env);
    Drag(l.id, pt.x - (box.x + box.w / 2.0), pt.y - (box.y + box.h / 2.0))
  }

  /** The position a pointer-move at `pt` asks for, as fractions of the canvas. */
  function DragTarget(d: Drag, c: Canvas, pt: Point): (p: Point)
    requires c.width > 0.0 && c.height > 0.0
    ensures p.x * c.width == pt.x - d.offX && p.y * c.height == pt.y - d.offY
  {
    Point((pt.x - d.offX) / c.width, (pt.y - d.offY) / c.height)
  }

  /** A drag whose offset is pointer minus layer centre, as `Grab` records
      it, asks for the layer's own position when the pointer returns to
      where the drag started. */
  lemma OffsetTarget(d: Drag, c: Canvas, pt: Point, x: real, y: real)
    requires c.width > 0.0 && c.height > 0.0
    requires d.offX == pt.x - c.width * x && d.offY == pt.y - c.height * y
    ensures DragTarget(d, c, pt) == Point(x, y)
  {
    Unscale(pt.x, d.offX, c.width, x);
    Unscale(pt.y, d.offY, c.height, y);
  }

  lemma Unscale(p: real, off: real, size: real, frac: real)
    requires size > 0.0 && off == p - size * frac
    ensures (p - off) / size == frac
  {
    assert p - off == size * frac;
  }

  /** Hence a drag on layer `i` that returns to its starting point leaves
      the list exactly as it was, provided the layer's position was already
      inside the canvas. */
  lemma ReturnLeavesLayers(ls: seq<Layer>, i: nat, c: Canvas, pt: Point, d: Drag)
    requires i < |ls| && UniqueIds(ls)
    requires c.width > 0.0 && c.height > 0.0
    requires 0.0 <= ls[i].x <= 1.0 && 0.0 <= ls[i].y <= 1.0
    requires d.id == ls[i].id && d.offX == pt.x - c.width * ls[i].x && d.offY == pt.y - c.height * ls[i].y
    ensures var p := DragTarget(d, c, pt);
      Moved(ls, d.id, p.x, p.y) == ls
  {
    OffsetTarget(d, c, pt, ls[i].x, ls[i].y);
    var r := Moved(ls, ls[i].id, ls[i].x, ls[i].y);
    forall k | 0 <= k < |ls| ensures r[k] == ls[k] {
      if ls[k].id == ls[i].id {
        assert k == i;
      }
    }
  }

  // ---------------------------------------------------------------------
  // Canvas size presets

  /** The aspect buttons: 1:1, 16:9, 9:16 and 3:1. */
  datatype Preset = Square | Wide | Tall | Banner

  function PresetSize(p: Preset): (c: Canvas)
    ensures c.width >= 256.0 && c.height >= 256.0
    ensures p == Square ==> c.width == c.height
    ensures p == Wide ==> 9.0 * c.width == 16.0 * c.height
    ensures p == Tall ==> 16.0 * c.width == 9.0 * c.height
    ensures p == Banner ==> c.width == 3.0 * c.height
  {
    match p
    case Square => Canvas(1024.0, 1024.0)
    case Wide => Canvas(1600.0, 900.0)
    case Tall => Canvas(1080.0, 1920.0)
    case Banner => Canvas(1800.0, 600.0)
  }

  // ---------------------------------------------------------------------
  // The editor state

  class Editor {
    var width: real
    var height: real
    var bgTemplate: Option<string>
    var bgUpload: Option<string>
    var layers: seq<Layer>
    var selectedId: Option<string>
    var drag: Option<Drag>

    /** The canvas never drops below 256 on either side, and layer ids are
        unique (each comes from a fresh `uid`). */
    predicate Valid()
      reads this
    {
      width >= 256.0 && height >= 256.0 && UniqueIds(layers)
    }

    function CanvasSize(): (c: Canvas)
      reads this
      ensures c.width == width && c.height == height
    {
      Canvas(width, height)
    }

    /** The `selected` memo: the layer the selected id resolves to. */
    function Selected(): (r: Option<Layer>)
      reads this
      ensures r.Some? ==> r.value in layers && selectedId == Some(r.value.id)
      ensures r.None? ==> selectedId.None? || forall l :: l in layers ==> l.id != selectedId.value
    {
      Find(layers, selectedId)
    }

    /** `activeBgURL`. */
    function ActiveBg(): Option<string>
      reads this
    {
      ActiveBackground(bgUpload, bgTemplate)
    }

    /** What a repaint reads. The base template is always blank: nothing
        in the editor changes it. */
    function CurrentScene(): (s: Scene)
      reads this
      ensures s.canvas == CanvasSize() && s.layers == layers && s.selectedId == selectedId
      ensures s.template == Blank
      ensures s.activeBg == ActiveBg()
    {
      Scene(CanvasSize(), Blank, ActiveBg(), layers, selectedId)
    }

    constructor ()
      ensures Valid()
      ensures width == 1024.0 && height == 1024.0
      ensures bgTemplate == None && bgUpload == None
      ensures layers == [] && selectedId == None && drag == None
    {
      width, height := 1024.0, 1024.0;
      bgTemplate, bgUpload := None, None;
      layers, selectedId, drag := [], None, None;
    }

    /** The render effect on the current state. */
    method Draw(env: Platform, res: Resources) returns (ops: seq<Op>)
      requires Valid()
      requires res.background.Some? ==> res.background.value.width > 0.0 && res.background.value.height > 0.0
      ensures ops == Frame(CurrentScene(), env, res)
    {
      ops := Repaint(CurrentScene(), env, res);
    }

    // -------------------------------------------------------------------
    // Pointer handlers

    /** Walks the layers from the top down, skipping hidden ones; the first
        whose box contains the pointer is selected and grabbed. When none is,
        the selection is cleared and the drag is left as it was. `pt` is the
        pointer in canvas pixels, as `CanvasOffset` gives it. */
    method PointerDown(env: Platform, pt: Point)
      requires Valid()
      modifies this
      ensures Valid()
      ensures layers == old(layers) && width == old(width) && height == old(height)
      ensures bgTemplate == old(bgTemplate) && bgUpload == old(bgUpload)
      ensures var hit := TopHit(layers, CanvasSize(), env, pt, |layers|);
        match hit
        case Some(i) =>
          selectedId == Some(layers[i].id) && drag == Some(Grab(layers[i], CanvasSize(), env, pt))
        case None =>
          selectedId == None && drag == old(drag)
    {
      var c := Canvas(width, height);
      var i := |layers|;
      while i > 0
        invariant 0 <= i <= |layers|
        invariant TopHit(layers, c, env, pt, i) == TopHit(layers, c, env, pt, |layers|)
      {
        i := i - 1;
        var l := layers[i];
        if Hidden(l) {
          continue;
        }
        var box := LayerBox(l, c, env);
        if Contains(box, pt) {
          assert TopHit(layers, c, env, pt, i + 1) == Some(i);
          selectedId := Some(l.id);
          drag := Some(Grab(l, c, env, pt));
          return;
        }
      }
      selectedId := None;
    }

    /** With a drag on a truthy id, moves every layer carrying that id to the
        pointer minus the grab offset, clamped into the canvas. */
    method PointerMove(pt: Point)
      requires Valid()
      modifies this
      ensures Valid()
      ensures selectedId == old(selectedId) && drag == old(drag)
      ensures width == old(width) && height == old(height)
      ensures bgTemplate == old(bgTemplate) && bgUpload == old(bgUpload)
      ensures drag.None? || drag.value.id == "" ==> layers == old(layers)
      ensures drag.Some? && drag.value.id != "" ==>
        var p := DragTarget(drag.value, CanvasSize(), pt);
        layers == Moved(old(layers), drag.value.id, p.x, p.y)
    {
      if drag.None? || drag.value.id == "" {
        return;
      }
      var d := drag.value;
      layers := Moved(layers, d.id, (pt.x - d.offX) / width, (pt.y - d.offY) / height);
    }

    method PointerUp()
      modifies this
      ensures drag == None
      ensures layers == old(layers) && selectedId == old(selectedId)
      ensures width == old(width) && height == old(height)
      ensures bgTemplate == old(bgTemplate) && bgUpload == old(bgUpload)
    {
      drag := None;
    }

    // -------------------------------------------------------------------
    // Adding layers

    /** Add text: a fresh default text layer on top, selected. */
    method AddText(id: string)
      requires Valid() && Fresh(layers, id)
      modifies this
      ensures Valid()
      ensures layers == old(layers) + [NewTextLayer(id)]
      ensures selectedId == Some(id) && Selected() == Some(NewTextLayer(id))
      ensures drag == old(drag) && width == old(width) && height == old(height)
      ensures bgTemplate == old(bgTemplate) && bgUpload == old(bgUpload)
    {
      var l := NewTextLayer(id);
      AppendFresh(layers, l);
      layers := layers + [l];
      selectedId := Some(id);
    }

    /** Add image: only a file whose type starts with `image/` is taken; it
        becomes a sticker named after the file, on top, selected. `url` is
        the object URL created for the file. */
    method AddImageSticker(f: File, id: string, url: string)
      requires Valid() && Fresh(layers, id)
      modifies this
      ensures Valid()
      ensures !IsImageFile(f) ==> layers == old(layers) && selectedId == old(selectedId)
      ensures IsImageFile(f) ==>
        var l := NewImageLayer(id, StickerName(f), url);
        layers == old(layers) + [l] && selectedId == Some(id) && Selected() == Some(l)
      ensures drag == old(drag) && width == old(width) && height == old(height)
      ensures bgTemplate == old(bgTemplate) && bgUpload == old(bgUpload)
    {
      if !IsImageFile(f) {
        return;
      }
      var l := NewImageLayer(id, StickerName(f), url);
      AppendFresh(layers, l);
      layers := layers + [l];
      selectedId := Some(id);
    }

    /** A predefined image: a sticker with the given name and URL, on top, selected. */
    method AddImageStickerFromUrl(url: string, name: string, id: string)
      requires Valid() && Fresh(layers, id)
      modifies this
      ensures Valid()
      ensures layers == old(layers) + [NewImageLayer(id, name, url)]
      ensures selectedId == Some(id) && Selected() == Some(NewImageLayer(id, name, url))
      ensures drag == old(drag) && width == old(width) && height == old(height)
      ensures bgTemplate == old(bgTemplate) && bgUpload == old(bgUpload)
    {
      var l := NewImageLayer(id, name, url);
      AppendFresh(layers, l);
      layers := layers + [l];
      selectedId := Some(id);
    }

    // -------------------------------------------------------------------
    // Editing existing layers

    /** Replace image: with an image layer selected and a file chosen, that
        layer shows the file (`upload` is its object URL); otherwise nothing
        changes. */
    method ReplaceSelectedImage(upload: Option<string>)
      requires Valid()
      modifies this
      ensures Valid()
      ensures var sel := old(Selected());
        if sel.Some? && IsSticker(sel.value) && upload.Some? then
          layers == WithImage(old(layers), sel.value.id, upload.value)
        else layers == old(layers)
      ensures selectedId == old(selectedId) && drag == old(drag)
      ensures width == old(width) && height == old(height)
      ensures bgTemplate == old(bgTemplate) && bgUpload == old(bgUpload)
    {
      var sel := Find(layers, selectedId);
      if sel.None? || !IsSticker(sel.value) || upload.None? {
        return;
      }
      layers := WithImage(layers, sel.value.id, upload.value);
    }

    /** Clear stickers: every image layer goes; the selection goes with it
        when it was one of them. */
    method ClearStickers()
      requires Valid()
      modifies this
      ensures Valid()
      ensures layers == WithoutStickers(old(layers))
      ensures selectedId == ClearedSelection(old(layers), old(selectedId))
      ensures drag == old(drag) && width == old(width) && height == old(height)
      ensures bgTemplate == old(bgTemplate) && bgUpload == old(bgUpload)
    {
      KeepUnique(layers, NotSticker);
      selectedId := ClearedSelection(layers, selectedId);
      layers := WithoutStickers(layers);
    }

    /** Sets one property of the selected layer; without a selection nothing changes. */
    method SetSelectedProp(p: Prop)
      requires Valid()
      modifies this
      ensures Valid()
      ensures var sel := old(Selected());
        if sel.Some? then layers == WithPropAt(old(layers), sel.value.id, p)
        else layers == old(layers)
      ensures selectedId == old(selectedId) && drag == old(drag)
      ensures width == old(width) && height == old(height)
      ensures bgTemplate == old(bgTemplate) && bgUpload == old(bgUpload)
    {
      var sel := Find(layers, selectedId);
      if sel.None? {
        return;
      }
      layers := WithPropAt(layers, sel.value.id, p);
    }

    /** The eye button of a layer row. */
    method ToggleVisibility(id: string)
      requires Valid()
      modifies this
      ensures Valid()
      ensures layers == Toggled(old(layers), id)
      ensures selectedId == old(selectedId) && drag == old(drag)
      ensures width == old(width) && height == old(height)
      ensures bgTemplate == old(bgTemplate) && bgUpload == old(bgUpload)
    {
      layers := Toggled(layers, id);
    }

    /** The delete button of a layer row. The selected id is kept, but it no
        longer resolves to a layer once that layer is gone. */
    method DeleteLayer(id: string)
      requires Valid()
      modifies this
      ensures Valid()
      ensures layers == Deleted(old(layers), id)
      ensures selectedId == old(selectedId) && drag == old(drag)
      ensures selectedId == Some(id) ==> Selected() == None
      ensures width == old(width) && height == old(height)
      ensures bgTemplate == old(bgTemplate) && bgUpload == old(bgUpload)
    {
      KeepUnique(layers, NotId(id));
      layers := Deleted(layers, id);
    }

    /** Clicking a layer row selects it. */
    method SelectLayer(id: string)
      modifies this
      ensures selectedId == Some(id)
      ensures layers == old(layers) && drag == old(drag)
      ensures width == old(width) && height == old(height)
      ensures bgTemplate == old(bgTemplate) && bgUpload == old(bgUpload)
    {
      selectedId := Some(id);
    }

    // -------------------------------------------------------------------
    // Canvas and background

    /** The width field: `None` stands for an entry that is not a number. */
    method SetWidth(v: Option<real>)
      requires Valid()
      modifies this
      ensures Valid()
      ensures width == ClampDimension(v) && height == old(height)
      ensures layers == old(layers) && selectedId == old(selectedId) && drag == old(drag)
      ensures bgTemplate == old(bgTemplate) && bgUpload == old(bgUpload)
    {
      width := ClampDimension(v);
    }

    method SetHeight(v: Option<real>)
      requires Valid()
      modifies this
      ensures Valid()
      ensures height == ClampDimension(v) && width == old(width)
      ensures layers == old(layers) && selectedId == old(selectedId) && drag == old(drag)
      ensures bgTemplate == old(bgTemplate) && bgUpload == old(bgUpload)
    {
      height := ClampDimension(v);
    }

    method ApplyPreset(p: Preset)
      requires Valid()
      modifies this
      ensures Valid()
      ensures CanvasSize() == PresetSize(p)
      ensures layers == old(layers) && selectedId == old(selectedId) && drag == old(drag)
      ensures bgTemplate == old(bgTemplate) && bgUpload == old(bgUpload)
    {
      var c := PresetSize(p);
      width, height := c.width, c.height;
    }

    /** Choosing a template background (`Some`) or clearing it (`None`). */
    method SetBackgroundTemplate(url: Option<string>)
      modifies this
      ensures bgTemplate == url && bgUpload == old(bgUpload)
      ensures Truthy(bgUpload) ==> ActiveBg() == bgUpload
      ensures !Truthy(bgUpload) ==> ActiveBg() == url
      ensures layers == old(layers) && selectedId == old(selectedId) && drag == old(drag)
      ensures width == old(width) && height == old(height)
    {
      bgTemplate := url;
    }

    /** Uploading a background (its object URL) or clearing the upload. */
    method SetBackgroundUpload(url: Option<string>)
      modifies this
      ensures bgUpload == url && bgTemplate == old(bgTemplate)
      ensures Truthy(url) ==> ActiveBg() == url
      ensures !Truthy(url) ==> ActiveBg() == bgTemplate
      ensures layers == old(layers) && selectedId == old(selectedId) && drag == old(drag)
      ensures width == old(width) && height == old(height)
    {
      bgUpload := url;
    }
  }
}
