# mogmeme editor core, modelled in Dafny

mogmeme is a browser meme editor. A canvas of configurable size shows a
background, a cover-fitted background image and an ordered list of layers:
the built-in face graphic, image stickers and outlined text. List order is
z-order. The user adds, edits, hides, deletes and drags layers. The canvas
is repainted from that state after every change.

This project models the editor's state and the logic that runs on it, all
from `src/App.tsx`:

- `layers.dfy` (module `Layers`) holds the layer union and the list
  updaters the handlers apply to the list: toggle, delete, clear stickers,
  set a property, replace an image, move, and the add defaults.
- `geometry.dfy` (module `Geometry`) holds the arithmetic:
  - render size and the responsive font size;
  - the text box width;
  - the box built from a layer's four rotated corners;
  - the inclusive hit test;
  - the cover-fit of the background image;
  - background precedence;
  - the canvas size floor.
- `render.dfy` (module `Render`) holds the repaint. It produces the sequence
  of draw records in order: base fill, background, one record per shown
  layer, and the selection outline. It includes the glyph loop that
  lays text out character by character.
- `app.dfy` (module `App`) holds the hit test over the whole list, the drag
  record, and the class `Editor`. Its fields are the editor's state: width,
  height, template and uploaded backgrounds, layers, selected id, drag. Its
  methods are the pointer handlers and the buttons.

A few platform services are passed in as parameters and never interpreted,
through the datatype `Geometry.Platform`:

- `Math.cos` and `Math.sin` of a rotation given in degrees;
- `measureText` for a font size and a string;
- `toUpperCase`.

Image readiness is a parameter of the repaint (`Render.Resources`).

JavaScript's falsy values are modelled where the code relies on them:

- `scale || 1` maps 0 to 1.
- `rotation || 0` maps an absent rotation to 0.
- Only `visible === false` hides a layer.
- An empty selected id or drag id counts as no id.
- `bgUploadURL || bgTemplateURL` treats an empty upload as absent.
- In `Number(v) || 0`, `None` stands for a value that is not a number.

One discrepancy in the source is kept as written:

- The repaint centres text using the number of code points (`[...txt].length`).
- The hit test and the outline use the UTF-16 length (`txt.length`).
- With non-zero letter spacing, text containing characters outside the
  Basic Multilingual Plane (emoji, say) therefore gets a box whose width
  differs from that of the drawn text by one spacing per such character.
  The box is wider for a positive spacing and narrower for a negative one
  (the slider goes down to -2).

`Geometry.TextWidthsAgree` proves when the two widths agree, and
`Geometry.EmojiBoxWiderThanText` gives a concrete case where they do not.

The pointer handlers read the pointer as `clientX - rect.left` and
`clientY - rect.top`. That is an offset in CSS pixels. The handlers compare
it with layer boxes and divide it by `width` and `height`, all of which are
in canvas pixels. The stylesheet (`max-w-full h-auto`) shrinks the canvas
element to the width of its column. The page layout caps that column at
about 686 CSS pixels:
- the page is at most 1280 px wide, with 32 px padding;
- a five-column grid with 24 px gaps gives the canvas three columns;
- the column has 16 px padding and a 1 px border.

Below the large breakpoint, the column is the viewport minus its padding,
which is narrower than 1024. So the default 1024 canvas, and every preset,
is always shown scaled down, and the two units always differ. This is
recorded under "## Findings". The handlers in the model take the pointer in
canvas pixels, as the corrected `App.CanvasOffset` gives it. When the canvas
is shown at its own size, this equals the source's offset
(`App.OffsetsAgreeUnscaled`).

## Model

| member | source | states |
|---|---|---|
| Layers.Clamp01 | src/App.tsx:228 | the clamped value lies in [0,1], equals the input inside that range, and is 0 below it and 1 above it |
| Layers.Find | src/App.tsx:162 | a found layer is in the list and carries the id; when none is found, no layer carries the id |
| Layers.FindUnique | src/App.tsx:162 | with unique ids, looking up a layer's id finds that very layer |
| Layers.UpdateWhere | src/App.tsx:228 | the `map` shape of the updaters: same length, position by position either the updated layer (id matches) or the old one |
| Layers.KeepMembers | src/App.tsx:272 | the `filter` shape of the updaters: a layer survives iff it was in the list and passes the predicate |
| Layers.KeepAppend | src/App.tsx:272 | filtering distributes over concatenation, so relative order is preserved |
| Layers.KeepUnique | src/App.tsx:272 | filtering keeps ids unique |
| Layers.ToggleVisible | src/App.tsx:380 | the effective visibility is flipped, the field becomes explicit, nothing else changes |
| Layers.Toggled | src/App.tsx:380 | only layers with the id are toggled; ids, order and every other layer are unchanged |
| Layers.Deleted | src/App.tsx:381 | exactly the layers without the id survive, and the id no longer resolves; deleting an id no layer carries leaves the list unchanged |
| Layers.DeletedExactly | src/App.tsx:381 | deleting a layer with a unique id from `before + [l] + after` gives `before + after` |
| Layers.WithoutStickers | src/App.tsx:272 | Clear stickers keeps exactly the non-image layers |
| Layers.ClearStickersSelection | src/App.tsx:270-276 | the selection is cleared iff the selected layer was an image; otherwise it resolves to the same layer afterwards |
| Layers.WithProp | src/App.tsx:277 | setting a property keeps id, name, visibility, rotation and layer kind; an image's source is untouched |
| Layers.SetThenGet | src/App.tsx:277 | after setting a property it holds (text properties only on text layers), and a property in another slot is preserved |
| Layers.WithPropAt | src/App.tsx:277 | only layers with the id change. Each changed layer holds the property and every other slot it held, and keeps its name, visibility, rotation and kind; an image keeps its source |
| Layers.WithSrc | src/App.tsx:269 | an image layer gets the new source and nothing else changes; any other layer is unchanged |
| Layers.WithImage | src/App.tsx:269 | only image layers with the id get the new source; ids and every other layer are unchanged |
| Layers.Moved | src/App.tsx:225-229 | only layers with the drag id change, and only in x and y, which are the requested position clamped to [0,1] |
| Layers.AppendFresh | src/App.tsx:266-268 | appending a layer with a fresh id keeps ids unique, puts it on top, and makes its id resolve to it |
| Layers.ClearedSelection | src/App.tsx:273 | the selection is either kept or cleared. It is kept when the list has no image or the id is empty, and cleared when a truthy id resolves to an image |
| Layers.NewTextLayer | src/App.tsx:266 | the default text layer: the given id, named "Text", visible, unrotated, centred at (0.5, 0.5), scale 1, opacity 1, "NEW TEXT" at 72 px with a 12 px stroke, no spacing, all caps |
| Layers.IsImageFile | src/App.tsx:267 | a file is taken iff its MIME type starts with `image/` |
| Layers.StickerName | src/App.tsx:267 | the sticker name is never empty, and is the file's name whenever that is non-empty |
| Layers.NewImageLayer | src/App.tsx:267-268 | the default sticker: the given id, name and source, an image, visible, unrotated, centred at (0.5, 0.5), scale 0.6, opacity 1 |
| Geometry.RenderSize | src/App.tsx:180 | `min(width,height)` times the scale, with scale 0 read as 1 |
| Geometry.RenderSizeShorterSide | src/App.tsx:180 | the size depends only on the shorter canvas side |
| Geometry.FontPx | src/App.tsx:185 | the font size is at least 10 px and at least the scaled size, and equals one of the two |
| Geometry.FontPxAtReference | src/App.tsx:185 | on a canvas whose shorter side is 1024 the font size is the stored size (when that is at least 10) |
| Geometry.FontPxMonotone | src/App.tsx:185 | a larger canvas never gives a smaller font |
| Geometry.Utf16Length | src/App.tsx:196 | a string's UTF-16 length is at least its number of code points |
| Geometry.Utf16LengthExact | src/App.tsx:196 | the two lengths agree iff no character is outside the Basic Multilingual Plane |
| Geometry.TextWidthsAgree | src/App.tsx:187-196 | box width minus drawn width is (UTF-16 length − code points) × spacing; they agree iff the spacing is 0 or all characters are in the Basic Multilingual Plane |
| Geometry.EmojiBoxWiderThanText | src/App.tsx:187-196 | two emoji with spacing 10 give a box 20 px wider than the drawn text |
| Geometry.LayerExtent | src/App.tsx:195-197 | face and image layers use the square render size. A text layer is `fontPx·1.35` high (so at least 13.5) and as wide as the measured display string plus (UTF-16 length − 1) spacings |
| Geometry.DisplayText | src/App.tsx:185 | the shown string is the upper-cased text when all-caps is set, and the text itself otherwise |
| Geometry.TextBoxWidth | src/App.tsx:196 | with zero spacing or a single UTF-16 unit the box width is the measured width; a non-negative spacing never makes it narrower |
| Geometry.TextRenderWidth | src/App.tsx:187 | with zero spacing or a single code point the drawn width is the measured width; a non-negative spacing never makes it narrower |
| Geometry.TextHitBoxGap | src/App.tsx:187-197 | an unrotated text layer's box is as wide as the UTF-16 box width, which exceeds the drawn width by (UTF-16 length − code points) × spacing |
| Geometry.Contains | src/App.tsx:218 | the inclusive test holds iff the point lies within half the box's size of its centre on both axes |
| Geometry.CornerBox | src/App.tsx:198-201 | the box from the four rotated corners has non-negative size, is centred on the layer centre, and its sides are twice the larger projected half-diagonal |
| Geometry.UnrotatedBox | src/App.tsx:198-201 | with no rotation the box is exactly centre ± half-width by centre ± half-height |
| Geometry.RotationNeverShrinksArea | src/App.tsx:198-201 | for a proper rotation the box's area is at least that of the unrotated rectangle |
| Geometry.LayerBox | src/App.tsx:211-217 | a layer's box has non-negative size and is centred on `(width·x, height·y)` |
| Geometry.UnrotatedSquareHit | src/App.tsx:218 | an unrotated face or image layer is hit exactly inside its square, borders included |
| Geometry.CoverFit | src/App.tsx:175 | the drawn image covers the canvas, fits one side exactly, is centred, starts at or before the origin and keeps its aspect ratio |
| Geometry.ActiveBackground | src/App.tsx:156 | a truthy upload wins; otherwise the template background is used |
| Geometry.UploadOverTemplate | src/App.tsx:156 | uploading over a template shows the upload; clearing the upload brings the template back |
| Geometry.ClampDimension | src/App.tsx:300 | a width or height entry is floored at 256, kept when above it, and a non-number gives 256 |
| Render.GlyphRun | src/App.tsx:187-188 | one glyph per code point |
| Render.GlyphRunChars | src/App.tsx:187-188 | glyph i carries code point i, so the run shows the string in order |
| Render.AdvanceIsInkPlusSpacing | src/App.tsx:188 | the pen moves by the glyphs' widths plus one spacing per glyph |
| Render.GlyphPosition | src/App.tsx:188 | glyph k is centred half its width past the advance of the glyphs before it |
| Render.TextCentred | src/App.tsx:187-188 | when the string measures as the sum of its glyphs, the laid-out run is symmetric about the layer centre |
| Render.LayoutGlyphs | src/App.tsx:187-188 | the glyph loop yields exactly the glyph run and leaves the pen at start plus the total advance |
| Render.TextShowsDisplayString | src/App.tsx:185-187 | a text layer draws its text upper-cased exactly when all-caps is set, glyph for glyph |
| Render.TextStart | src/App.tsx:187 | the pen starts half the nominal drawn width left of the centre, so the nominal run ends as far right as it starts left; the start is at or left of the centre exactly when that width is non-negative (where the laid-out glyphs end is `Render.TextCentred`) |
| Render.FigureOf | src/App.tsx:182-188 | a face or image not yet loaded draws nothing; a loaded face or image draws at the render size, an image from its own source; a text layer draws one glyph per display character at a font of at least 10 px |
| Render.PaintOf | src/App.tsx:180-181 | a shown layer's record carries its id and its opacity |
| Render.PaintAtBoxCentre | src/App.tsx:180-181 | each layer is painted about the centre of the box that the outline and the hit test use |
| Render.LayerPaints | src/App.tsx:178-191 | at most one record per layer, all of them paints, and none when every layer is hidden |
| Render.PaintLayers | src/App.tsx:178-191 | the layer loop yields exactly the layer paints of the list |
| Render.BackgroundOps | src/App.tsx:174-177 | the background is drawn iff the image has loaded and the active URL is truthy, as a single cover of that URL at least as large as the canvas |
| Render.OutlineOps | src/App.tsx:192-202 | an outline exactly when the selected layer is in the list and shown, around that layer's box; none without a selection |
| Render.Frame | src/App.tsx:164-203 | a frame opens with the base fill and holds no other; in all it has at most three records more than there are layers (base fill, background and outline, besides at most one per layer) |
| Render.LayerPaintsSnoc | src/App.tsx:178-179 | one more layer adds one paint record when it is shown and none when it is hidden |
| Render.PaintsShownInOrder | src/App.tsx:178-191 | the layer loop paints exactly the shown layers, in list order |
| Render.PaintLayer | src/App.tsx:180-189 | one shown layer's paint record: translated to its centre, rotated, at its opacity, drawing its figure |
| Render.Repaint | src/App.tsx:164-203 | the repaint issues base fill, background, the shown layers and the selection outline, in that order |
| App.Hits | src/App.tsx:210-218 | a layer is hit iff it is shown and the pointer is within half its box's width and height of the layer's centre |
| App.CentreIsHit | src/App.tsx:210-218 | a shown layer is always hit at its own centre |
| App.ClientOffset | src/App.tsx:208 | as written, the pointer is the client position minus the canvas's page offset, in CSS pixels |
| App.CanvasOffset | src/App.tsx:208 | corrected: the page offset scaled by canvas size over displayed size |
| App.Displayed | src/App.tsx:441-443 | where a canvas pixel appears on a page that scales the canvas to its displayed size |
| App.CanvasOffsetInverts | src/App.tsx:208 | the corrected offset of the place where a canvas pixel is shown is that pixel |
| App.OffsetsAgreeUnscaled | src/App.tsx:208 | on a canvas shown at its own size the source's offset and the corrected one agree |
| App.DisplayedCentreIsHit | src/App.tsx:208-218 | with the corrected offset, clicking where a shown layer's centre is displayed hits it |
| App.ClientOffsetMissesScaledCanvas | src/App.tsx:208-218 | with the source's offset, on a canvas shown at half size, the same click misses the layer |
| App.TopHit | src/App.tsx:209-218 | the chosen index is hit (shown and containing the pointer) and no layer above it is hit; no result means no layer is hit |
| App.TopmostWins | src/App.tsx:209-219 | whenever some layer is hit, the chosen one is at least as high and is shown |
| App.HiddenSkipped | src/App.tsx:210 | a hidden layer is passed over by the hit test |
| App.Grab | src/App.tsx:219 | the recorded offset is the pointer minus the layer's centre |
| App.DragTarget | src/App.tsx:228 | the requested position, scaled back by the canvas size, is the pointer minus the grab offset |
| App.OffsetTarget | src/App.tsx:219-228 | with that offset, a pointer back at the starting point asks for the layer's own position |
| App.ReturnLeavesLayers | src/App.tsx:219-228 | dragging back to the start leaves the list unchanged when the layer was inside the canvas |
| App.PresetSize | src/App.tsx:308-311 | the preset sizes have the named aspect ratios and respect the 256 floor |
| App.Editor.constructor | src/App.tsx:151-161 | the editor starts on a 1024×1024 canvas with no backgrounds, no layers, no selection and no drag |
| App.Editor.Selected | src/App.tsx:162 | the selected layer is in the list and carries the selected id; none means no layer carries it |
| App.Editor.CurrentScene | src/App.tsx:153-164 | the repaint reads the current canvas, layers, selection and active background, with the blank template |
| App.Editor.Draw | src/App.tsx:164-203 | the render effect draws the frame of the current state |
| App.Editor.PointerDown | src/App.tsx:206-224 | the topmost hit layer is selected and grabbed; with no hit the selection becomes empty and the drag is left alone; nothing else changes |
| App.Editor.PointerMove | src/App.tsx:225-229 | without a drag on a truthy id nothing changes; otherwise the list becomes the moved list |
| App.Editor.PointerUp | src/App.tsx:230 | the drag is always cleared and nothing else changes |
| App.Editor.AddText | src/App.tsx:266 | the default text layer is appended on top and selected; ids stay unique |
| App.Editor.AddImageSticker | src/App.tsx:267 | a non-image file changes nothing; otherwise a default sticker named after the file is appended and selected |
| App.Editor.AddImageStickerFromUrl | src/App.tsx:268 | a default sticker with the given name and URL is appended and selected |
| App.Editor.ReplaceSelectedImage | src/App.tsx:269 | changes the selected image layer's source, and nothing without an image selection or a file |
| App.Editor.ClearStickers | src/App.tsx:270-276 | image layers are removed and the selection is cleared when it was one of them |
| App.Editor.SetSelectedProp | src/App.tsx:277 | edits the selected layer, and nothing without a selection |
| App.Editor.ToggleVisibility | src/App.tsx:380 | the layer list becomes the toggled list; everything else is unchanged |
| App.Editor.DeleteLayer | src/App.tsx:381 | the layer list becomes the deleted list, and a selection of the deleted id no longer resolves |
| App.Editor.SelectLayer | src/App.tsx:375 | clicking a row selects its layer |
| App.Editor.SetWidth | src/App.tsx:300 | the width becomes the floored entry; the editor stays valid |
| App.Editor.SetHeight | src/App.tsx:303 | the height becomes the floored entry; the editor stays valid |
| App.Editor.ApplyPreset | src/App.tsx:313 | a preset button sets both sides to the preset size |
| App.Editor.SetBackgroundTemplate | src/App.tsx:322 | choosing or clearing a template shows it unless a truthy upload is present |
| App.Editor.SetBackgroundUpload | src/App.tsx:330 | a truthy upload is shown; clearing it falls back to the template |

## Left out

- Pixels. Fills, gradients, `drawImage`, `strokeText` and `fillText` become abstract draw records. Stroke colours, the font family, the dash pattern and line joins are not recorded.
- The random dot texture of the "classic" template. Nothing in the editor selects that template, so the base fill is always blank.
- Layer ids from `uid`. They come from `Math.random`, so the add methods take the new id as a parameter, with a precondition that it is fresh.
- Object URLs made by `URL.createObjectURL`. They are parameters too.
- Asynchronous image loading and the re-render after `onload`. Whether the face graphic, an image or the background has loaded is an input of the repaint.
- The share link: JSON, then UTF-8, then base64. It relies entirely on library calls and the source has no decoder, so there is no property of its own to state.
- Clipboard, download, blob handling and the toast message. These are browser I/O.
- Pointer capture and its release. They only route later events to the canvas.
- App.Editor.PointerDown: takes the pointer in canvas pixels (the corrected `App.CanvasOffset`), not the source's CSS-pixel offset; see "## Findings".
- App.Editor.PointerMove: takes the pointer in canvas pixels as well, for the same reason.
- The `break` taken in the hit test when the 2D context is missing. The model assumes a context is always there.
- Floating point. Sizes and positions are exact reals, so NaN, infinities and rounding are not modelled.
- `Math.cos`, `Math.sin`, `measureText` and `toUpperCase` are uninterpreted parameters.
- Layers.WithProp: a text property set on a face or image layer leaves that layer unchanged in the model. The source adds a stray field to it that nothing ever reads.
- Layers.WithProp: only the nine keys the selected-layer panel sets are modelled (src/App.tsx:392-420). `setSelectedProp` accepts any layer key, but no control passes another one.
- Geometry.CoverFit: assumes the image and canvas sizes are positive. A zero-sized image would make the source divide by zero.
- The header, the footer and the rest of the JSX layout. These are static markup.

## Findings

| source | as written | input that shows it | evidently intended | confidence | as-written member | corrected member |
|---|---|---|---|---|---|---|
| src/App.tsx:208 | the pointer is `clientX - rect.left`, in CSS pixels, and is compared with boxes in canvas pixels (the same at line 227 for dragging) | a 1024×1024 canvas shown at 512×512 CSS pixels; a face at (0.75, 0.75) with scale 0.2; a click on its displayed centre reads as (384, 384), outside its box 665.6–870.4 | scale the offset by `canvas.width / rect.width` and `canvas.height / rect.height` | high: the page layout caps the canvas column at about 686 CSS px (src/App.tsx:293-294, 437, 443), below every preset width; not executed | App.ClientOffsetMissesScaledCanvas | App.DisplayedCentreIsHit |
