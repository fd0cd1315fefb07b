/** The editor's layer list: the tagged layer union and the total list
    updaters the editor applies to it. List order is z-order: later layers
    are drawn on top and are hit first. */
module Layers {

  datatype Option<T> = None | Some(value: T)

  /** The variant-specific part of a layer. */
  datatype Kind =
    | Face
    | Text(text: string, fontSize: real, strokePx: real, letterSpacing: real, allCaps: bool)
    | Image(src: string)

  /** One layer. `x` and `y` are fractions of the canvas size; `rotation`
      (degrees) and `visible` are optional fields, absent meaning 0 and shown. */
  datatype Layer = Layer(
    id: string,
    name: string,
    x: real, y: real,
    scale: real, opacity: real,
    rotation: Option<real>,
    visible: Option<bool>,
    kind: Kind)

  /** `visible === false`: only an explicit `false` hides a layer. */
  predicate Hidden(l: Layer) { l.visible == Some(false) }

  predicate Shown(l: Layer) { !Hidden(l) }

  /** Image layers are the "stickers" that Clear stickers removes. */
  predicate IsSticker(l: Layer) { l.kind.Image? }

  /** No layer of `ls` carries `id`: the precondition standing for a fresh `uid`. */
  predicate Fresh(ls: seq<Layer>, id: string) { forall l :: l in ls ==> l.id != id }

  predicate UniqueIds(ls: seq<Layer>) {
    forall i, j :: 0 <= i < j < |ls| ==> ls[i].id != ls[j].id
  }

  /** `Math.max(0, Math.min(1, v))`. */
  function Clamp01(v: real): (r: real)
    ensures 0.0 <= r <= 1.0
    ensures 0.0 <= v <= 1.0 ==> r == v
    ensures v < 0.0 ==> r == 0.0
    ensures v > 1.0 ==> r == 1.0
  {
    if v >= 1.0 then 1.0 else if v <= 0.0 then 0.0 else v
  }

  /** `layers.find(l => l.id === selectedId) || null`. */
  function Find(ls: seq<Layer>, id: Option<string>): (r: Option<Layer>)
    ensures r.Some? ==> r.value in ls && Some(r.value.id) == id
    ensures r.None? ==> forall l :: l in ls ==> Some(l.id) != id
  {
    if ls == [] then None
    else if Some(ls[0].id) == id then Some(ls[0])
    else Find(ls[1..], id)
  }

  /** With unique ids the lookup finds exactly the layer carrying the id. */
  lemma {:induction false} FindUnique(ls: seq<Layer>, i: nat)
    requires UniqueIds(ls) && i < |ls|
    ensures Find(ls, Some(ls[i].id)) == Some(ls[i])
  {
    if i > 0 {
      assert ls[0].id != ls[i].id;
      assert ls[1..][i - 1] == ls[i];
      FindUnique(ls[1..], i - 1);
    }
  }

  /** `prev.map(l => l.id === id ? f(l) : l)`: the shape of every in-place edit. */
  function UpdateWhere(ls: seq<Layer>, id: string, f: Layer -> Layer): (r: seq<Layer>)
    ensures |r| == |ls|
    ensures forall i :: 0 <= i < |ls| ==> r[i] == if ls[i].id == id then f(ls[i]) else ls[i]
  {
    if ls == [] then []
    else [if ls[0].id == id then f(ls[0]) else ls[0]] + UpdateWhere(ls[1..], id, f)
  }

  /** `prev.filter(p)`. */
  function Keep(ls: seq<Layer>, p: Layer -> bool): (r: seq<Layer>)
    ensures |r| <= |ls|
  {
    if ls == [] then []
    else (if p(ls[0]) then [ls[0]] else []) + Keep(ls[1..], p)
  }

  /** A filter keeps exactly the layers that pass it. */
  lemma {:induction false} KeepMembers(ls: seq<Layer>, p: Layer -> bool)
    ensures forall l :: l in Keep(ls, p) <==> l in ls && p(l)
  {
    if ls != [] {
      KeepMembers(ls[1..], p);
      assert ls == [ls[0]] + ls[1..];
    }
  }

  /** Filtering keeps relative order: it distributes over concatenation. */
  lemma {:induction false} KeepAppend(a: seq<Layer>, b: seq<Layer>, p: Layer -> bool)
    ensures Keep(a + b, p) == Keep(a, p) + Keep(b, p)
  {
    if a == [] {
      assert a + b == b;
    } else {
      KeepAppend(a[1..], b, p);
      var head := if p(a[0]) then [a[0]] else [];
      calc {
        Keep(a + b, p);
        { assert (a + b)[0] == a[0]; assert (a + b)[1..] == a[1..] + b; }
        head + Keep(a[1..] + b, p);
        head + (Keep(a[1..], p) + Keep(b, p));
        (head + Keep(a[1..], p)) + Keep(b, p);
      }
    }
  }

  /** A filter that every layer passes changes nothing. */
  lemma {:induction false} KeepAll(ls: seq<Layer>, p: Layer -> bool)
    requires forall l :: l in ls ==> p(l)
    ensures Keep(ls, p) == ls
  {
    if ls != [] {
      assert ls == [ls[0]] + ls[1..];
      KeepAll(ls[1..], p);
    }
  }

  /** A filter keeps ids unique. */
  lemma {:induction false} KeepUnique(ls: seq<Layer>, p: Layer -> bool)
    requires UniqueIds(ls)
    ensures UniqueIds(Keep(ls, p))
  {
    if ls != [] {
      var tail := Keep(ls[1..], p);
      KeepUnique(ls[1..], p);
      KeepMembers(ls[1..], p);
      if p(ls[0]) {
        var r := [ls[0]] + tail;
        forall j | 0 < j < |r| ensures r[0].id != r[j].id {
          assert r[j] == tail[j - 1];
          assert r[j] in ls[1..];
          var k :| 0 <= k < |ls[1..]| && ls[1..][k] == r[j];
          assert ls[k + 1] == r[j];
        }
        forall i, j | 0 < i < j < |r| ensures r[i].id != r[j].id {
          assert r[i] == tail[i - 1] && r[j] == tail[j - 1];
        }
      }
    }
  }

  // ---------------------------------------------------------------------
  // Visibility toggle and delete (the per-row buttons of the layer list)

  /** `{...x, visible: x.visible === false ? true : false}`. */
  function ToggleVisible(l: Layer): (r: Layer)
    ensures Hidden(r) == !Hidden(l)
    ensures r.visible.Some?
    ensures r == l.(visible := r.visible)
  {
    l.(visible := Some(Hidden(l)))
  }

  /** Toggle every layer carrying `id`; order, ids and all other fields stay. */
  function Toggled(ls: seq<Layer>, id: string): (r: seq<Layer>)
    ensures |r| == |ls|
    ensures forall i :: 0 <= i < |ls| ==> r[i].id == ls[i].id
    ensures forall i :: 0 <= i < |ls| && ls[i].id == id ==>
      Hidden(r[i]) == !Hidden(ls[i]) && r[i] == ls[i].(visible := r[i].visible)
    ensures forall i :: 0 <= i < |ls| && ls[i].id != id ==> r[i] == ls[i]
  {
    UpdateWhere(ls, id, ToggleVisible)
  }

  /** The filter predicate of Delete: `x => x.id !== id`. */
  function NotId(id: string): Layer -> bool {
    (l: Layer) => l.id != id
  }

  /** `prev.filter(x => x.id !== id)`. */
  function Deleted(ls: seq<Layer>, id: string): (r: seq<Layer>)
    ensures forall l :: l in r <==> l in ls && l.id != id
    ensures Find(r, Some(id)) == None
    ensures Fresh(ls, id) ==> r == ls
  {
    KeepMembers(ls, NotId(id));
    if Fresh(ls, id) then
      KeepAll(ls, NotId(id));
      Keep(ls, NotId(id))
    else
      Keep(ls, NotId(id))
  }

  /** Dropping the layers carrying a fresh layer's id keeps everything around it, in order. */
  lemma KeepAroundFresh(before: seq<Layer>, l: Layer, after: seq<Layer>)
    requires Fresh(before, l.id) && Fresh(after, l.id)
    ensures Keep(before + [l] + after, NotId(l.id)) == before + after
  {
    var p := NotId(l.id);
    assert Keep([l], p) == [] by {
      assert !p(l) && [l][1..] == [];
    }
    KeepAll(before, p);
    KeepAll(after, p);
    KeepAppend(before, [l], p);
    KeepAppend(before + [l], after, p);
  }

  /** Delete removes exactly the layer carrying the id and keeps the rest in order. */
  lemma DeletedExactly(before: seq<Layer>, l: Layer, after: seq<Layer>)
    requires Fresh(before, l.id) && Fresh(after, l.id)
    ensures Deleted(before + [l] + after, l.id) == before + after
  {
    KeepAroundFresh(before, l, after);
  }

  // ---------------------------------------------------------------------
  // Clear stickers

  /** The filter predicate of Clear stickers: `l => l.type !== "image"`. */
  predicate NotSticker(l: Layer) { !IsSticker(l) }

  /** `prev.filter(l => l.type !== "image")`. */
  function WithoutStickers(ls: seq<Layer>): (r: seq<Layer>)
    ensures forall l :: l in r <==> l in ls && !IsSticker(l)
  {
    KeepMembers(ls, NotSticker);
    Keep(ls, NotSticker)
  }

  /** The selection after Clear stickers: cleared when the selected id is
      truthy and some image layer carries it, otherwise kept. */
  function ClearedSelection(ls: seq<Layer>, selectedId: Option<string>): (r: Option<string>)
    ensures r == None || r == selectedId
    ensures (forall l :: l in ls ==> !IsSticker(l)) ==> r == selectedId
    ensures selectedId == Some("") ==> r == selectedId
    ensures var found := Find(ls, selectedId);
      selectedId.Some? && selectedId.value != "" && found.Some? && IsSticker(found.value) ==> r == None
  {
    if selectedId.Some? && selectedId.value != ""
       && exists i :: 0 <= i < |ls| && ls[i].id == selectedId.value && IsSticker(ls[i])
    then None
    else selectedId
  }

  /** Clear stickers drops the selection iff the selected layer was an image;
      otherwise the selection still resolves to the same layer. */
  lemma ClearStickersSelection(ls: seq<Layer>, id: string)
    requires UniqueIds(ls) && id != ""
    ensures var found := Find(ls, Some(id));
      ClearedSelection(ls, Some(id)) == None <==> found.Some? && IsSticker(found.value)
    ensures ClearedSelection(ls, Some(id)).Some? ==>
      Find(WithoutStickers(ls), Some(id)) == Find(ls, Some(id))
  {
    var found := Find(ls, Some(id));
    if i :| 0 <= i < |ls| && ls[i].id == id {
      FindUnique(ls, i);
      assert found == Some(ls[i]);
      if !IsSticker(ls[i]) {
        var kept := WithoutStickers(ls);
        KeepUnique(ls, NotSticker);
        assert ls[i] in kept;
        var k :| 0 <= k < |kept| && kept[k] == ls[i];
        FindUnique(kept, k);
      }
    }
  }

  // ---------------------------------------------------------------------
  // Property edits on the selected layer

  /** The editable properties (`setSelectedProp`'s key together with its value). */
  datatype Prop =
    | X(real) | Y(real) | Scale(real) | Opacity(real)
    | TextContent(string) | FontSize(real) | StrokePx(real) | LetterSpacing(real) | AllCaps(bool)

  /** Which field a property writes; equal slots mean the same field. */
  function Slot(p: Prop): nat {
    match p
    case X(_) => 0 case Y(_) => 1 case Scale(_) => 2 case Opacity(_) => 3
    case TextContent(_) => 4 case FontSize(_) => 5 case StrokePx(_) => 6
    case LetterSpacing(_) => 7 case AllCaps(_) => 8
  }

  predicate IsTextProp(p: Prop) { Slot(p) >= 4 }

  /** The layer's field named by `p` holds `p`'s value. */
  predicate Holds(l: Layer, p: Prop) {
    match p
    case X(v) => l.x == v
    case Y(v) => l.y == v
    case Scale(v) => l.scale == v
    case Opacity(v) => l.opacity == v
    case TextContent(v) => l.kind.Text? && l.kind.text == v
    case FontSize(v) => l.kind.Text? && l.kind.fontSize == v
    case StrokePx(v) => l.kind.Text? && l.kind.strokePx == v
    case LetterSpacing(v) => l.kind.Text? && l.kind.letterSpacing == v
    case AllCaps(v) => l.kind.Text? && l.kind.allCaps == v
  }

  /** `{...l, [key]: value}`. A text property on a face or image layer only
      adds a field nothing reads, so the modelled layer is unchanged. */
  function WithProp(l: Layer, p: Prop): (r: Layer)
    ensures r.id == l.id && r.name == l.name && r.visible == l.visible && r.rotation == l.rotation
    ensures r.kind.Face? == l.kind.Face? && r.kind.Image? == l.kind.Image? && r.kind.Text? == l.kind.Text?
    ensures l.kind.Image? ==> r.kind == l.kind
  {
    match p
    case X(v) => l.(x := v)
    case Y(v) => l.(y := v)
    case Scale(v) => l.(scale := v)
    case Opacity(v) => l.(opacity := v)
    case TextContent(v) => if l.kind.Text? then l.(kind := l.kind.(text := v)) else l
    case FontSize(v) => if l.kind.Text? then l.(kind := l.kind.(fontSize := v)) else l
    case StrokePx(v) => if l.kind.Text? then l.(kind := l.kind.(strokePx := v)) else l
    case LetterSpacing(v) => if l.kind.Text? then l.(kind := l.kind.(letterSpacing := v)) else l
    case AllCaps(v) => if l.kind.Text? then l.(kind := l.kind.(allCaps := v)) else l
  }

  /** Setting a property makes it read back, and leaves every other property as it was. */
  lemma SetThenGet(l: Layer, p: Prop, q: Prop)
    ensures !IsTextProp(p) || l.kind.Text? ==> Holds(WithProp(l, p), p)
    ensures Slot(q) != Slot(p) && Holds(l, q) ==> Holds(WithProp(l, q), q) && Holds(WithProp(l, p), q)
  {
  }

  /** `prev.map(l => l.id === id ? {...l, [key]: value} : l)`. */
  function WithPropAt(ls: seq<Layer>, id: string, p: Prop): (r: seq<Layer>)
    ensures |r| == |ls|
    ensures forall i :: 0 <= i < |ls| ==> r[i].id == ls[i].id
    ensures forall i :: 0 <= i < |ls| && ls[i].id != id ==> r[i] == ls[i]
    ensures forall i :: 0 <= i < |ls| && ls[i].id == id && (!IsTextProp(p) || ls[i].kind.Text?) ==>
      Holds(r[i], p)
    ensures forall i, q :: 0 <= i < |ls| && Slot(q) != Slot(p) && Holds(ls[i], q) ==> Holds(r[i], q)
    ensures forall i :: 0 <= i < |ls| && ls[i].id == id ==>
      r[i].name == ls[i].name && r[i].visible == ls[i].visible && r[i].rotation == ls[i].rotation
      && r[i].kind.Face? == ls[i].kind.Face? && r[i].kind.Text? == ls[i].kind.Text?
      && (ls[i].kind.Image? ==> r[i].kind == ls[i].kind)
  {
    var r := UpdateWhere(ls, id, (l: Layer) => WithProp(l, p));
    forall i, q | 0 <= i < |ls| && Slot(q) != Slot(p) && Holds(ls[i], q) ensures Holds(r[i], q) {
      SetThenGet(ls[i], p, q);
    }
    forall i | 0 <= i < |ls| && ls[i].id == id && (!IsTextProp(p) || ls[i].kind.Text?)
      ensures Holds(r[i], p)
    {
      SetThenGet(ls[i], p, p);
    }
    r
  }

  /** `{...l, src}` for an image layer. */
  function WithSrc(l: Layer, src: string): (r: Layer)
    ensures l.kind.Image? ==> r == l.(kind := Image(src))
    ensures !l.kind.Image? ==> r == l
  {
    if l.kind.Image? then l.(kind := Image(src)) else l
  }

  /** Replace the image of the layers carrying `id`; everything else stays. */
  function WithImage(ls: seq<Layer>, id: string, src: string): (r: seq<Layer>)
    ensures |r| == |ls|
    ensures forall i :: 0 <= i < |ls| ==> r[i].id == ls[i].id
    ensures forall i :: 0 <= i < |ls| && ls[i].id == id && IsSticker(ls[i]) ==>
      r[i] == ls[i].(kind := Image(src))
    ensures forall i :: 0 <= i < |ls| && (ls[i].id != id || !IsSticker(ls[i])) ==> r[i] == ls[i]
  {
    UpdateWhere(ls, id, (l: Layer) => WithSrc(l, src))
  }

  // ---------------------------------------------------------------------
  // Dragging

  /** The pointer-move update: the layers carrying `id` get their position
      clamped into the unit square; nothing else changes. */
  function Moved(ls: seq<Layer>, id: string, rawX: real, rawY: real): (r: seq<Layer>)
    ensures |r| == |ls|
    ensures forall i :: 0 <= i < |ls| ==> r[i].id == ls[i].id
    ensures forall i :: 0 <= i < |ls| && ls[i].id != id ==> r[i] == ls[i]
    ensures forall i :: 0 <= i < |ls| && ls[i].id == id ==>
      r[i] == ls[i].(x := r[i].x, y := r[i].y)
      && 0.0 <= r[i].x <= 1.0 && 0.0 <= r[i].y <= 1.0
      && (0.0 <= rawX <= 1.0 ==> r[i].x == rawX)
      && (0.0 <= rawY <= 1.0 ==> r[i].y == rawY)
      && (rawX < 0.0 ==> r[i].x == 0.0) && (rawX > 1.0 ==> r[i].x == 1.0)
      && (rawY < 0.0 ==> r[i].y == 0.0) && (rawY > 1.0 ==> r[i].y == 1.0)
  {
    UpdateWhere(ls, id, (l: Layer) => l.(x := Clamp01(rawX), y := Clamp01(rawY)))
  }

  // ---------------------------------------------------------------------
  // New layers

  /** A local file as the file input hands it over. */
  datatype File = File(name: string, mimeType: string)

  /** `file.type.startsWith("image/")`. */
  predicate IsImageFile(f: File): (b: bool)
    ensures b <==> |f.mimeType| >= 6 && f.mimeType[..6] == "image/"
  {
    "image/" <= f.mimeType
  }

  /** The text layer Add text creates. */
  function NewTextLayer(id: string): (l: Layer)
    ensures l.id == id && l.name == "Text" && Shown(l) && l.kind.Text? && l.rotation == None
    ensures Holds(l, X(0.5)) && Holds(l, Y(0.5)) && Holds(l, Scale(1.0)) && Holds(l, Opacity(1.0))
    ensures Holds(l, TextContent("NEW TEXT")) && Holds(l, FontSize(72.0)) && Holds(l, StrokePx(12.0))
    ensures Holds(l, LetterSpacing(0.0)) && Holds(l, AllCaps(true))
  {
    Layer(id, "Text", 0.5, 0.5, 1.0, 1.0, None, Some(true),
          Text("NEW TEXT", 72.0, 12.0, 0.0, true))
  }

  /** The image layer the sticker actions create. */
  function NewImageLayer(id: string, name: string, src: string): (l: Layer)
    ensures l.id == id && l.name == name && IsSticker(l) && l.kind.src == src
    ensures Shown(l) && l.rotation == None
    ensures Holds(l, X(0.5)) && Holds(l, Y(0.5)) && Holds(l, Scale(0.6)) && Holds(l, Opacity(1.0))
  {
    Layer(id, name, 0.5, 0.5, 0.6, 1.0, None, Some(true), Image(src))
  }

  /** `file.name || "Sticker"`. */
  function StickerName(f: File): (name: string)
    ensures name != ""
    ensures f.name != "" ==> name == f.name
  {
    if f.name == "" then "Sticker" else f.name
  }

  /** Appending a layer with a fresh id keeps ids unique, puts it on top, and
      makes it the layer its id resolves to. */
  lemma AppendFresh(ls: seq<Layer>, l: Layer)
    requires UniqueIds(ls) && Fresh(ls, l.id)
    ensures UniqueIds(ls + [l])
    ensures (ls + [l])[|ls|] == l
    ensures Find(ls + [l], Some(l.id)) == Some(l)
  {
    var r := ls + [l];
    forall i, j | 0 <= i < j < |r| ensures r[i].id != r[j].id {
      if j == |ls| { assert r[i] in ls; }
    }
    FindUnique(r, |ls|);
  }
}
