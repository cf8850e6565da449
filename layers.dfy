/** The layer panel of the drawing canvas: a list of layers, one per canvas
    element, a selection (an ordered list of layer ids) and an active layer id.
    Every action changes these three in place, so they are the fields of
    `LayerStore`; the lookups and the sync's bookkeeping are functions over
    the layer list. Element ids the canvas supplies are strings; ids the id
    generator hands out for elements without one are modelled as serial
    numbers drawn from a counter the store keeps. */
module Layers {
  import opened Common

  datatype LayerId = Given(key: string) | Generated(serial: nat)

  /** The parts of a canvas element a layer looks at: its id and its tag. */
  datatype ElementRef = ElementRef(id: Option<string>, tag: Option<string>)

  datatype Layer = Layer(
    id: LayerId,
    name: string,
    kind: string,
    visible: bool,
    locked: bool,
    element: ElementRef,
    createdAt: int)

  /** `element.id || generateElementId()` */
  function IdFor(e: ElementRef, serial: nat): LayerId
  {
    if Truthy(e.id) then Given(e.id.value) else Generated(serial)
  }

  /** `${type} ${count + 1}` */
  function DefaultName(kind: string, count: nat): string
  {
    kind + " " + NatToString(count + 1)
  }

  function NewLayer(e: ElementRef, kind: string, name: Option<string>, serial: nat, count: nat, now: int): Layer
  {
    Layer(IdFor(e, serial), OrElse(name, DefaultName(kind, count)), kind, true, false, e, now)
  }

  /** A layer made by `createLayer` carries its element's own id, or a
      generated one when the element has none. */
  predicate IdMatches(l: Layer)
  {
    if Truthy(l.element.id) then l.id == Given(l.element.id.value) else l.id.Generated?
  }

  predicate UniqueIds(ls: seq<Layer>)
  {
    forall i, j :: 0 <= i < j < |ls| ==> ls[i].id != ls[j].id
  }

  // ---------------------------------------------------------------- lookups

  /** The position of the first layer with id `id`, or |ls|. */
  function Find(ls: seq<Layer>, id: LayerId): (k: nat)
    ensures k <= |ls|
    ensures k < |ls| ==> ls[k].id == id
    ensures forall i :: 0 <= i < k ==> ls[i].id != id
    ensures k == |ls| <==> forall i :: 0 <= i < |ls| ==> ls[i].id != id
  {
    FirstIndex(ls, (l: Layer) => l.id == id)
  }

  /** `getLayerById`: the first layer with that id, if any. */
  function LayerById(ls: seq<Layer>, id: LayerId): (r: Option<Layer>)
    ensures r.Some? <==> exists i :: 0 <= i < |ls| && ls[i].id == id
    ensures r.Some? ==> r.value.id == id && r.value in ls
  {
    var k := Find(ls, id);
    if k < |ls| then Some(ls[k]) else None
  }

  /** `getLayerByElementId`: the first layer whose element has that id. */
  function LayerByElementId(ls: seq<Layer>, elementId: Option<string>): (r: Option<Layer>)
    ensures r.Some? <==> exists i :: 0 <= i < |ls| && ls[i].element.id == elementId
    ensures r.Some? ==> r.value.element.id == elementId && r.value in ls
  {
    var k := FirstIndex(ls, (l: Layer) => l.element.id == elementId);
    if k < |ls| then Some(ls[k]) else None
  }

  /** `selectedLayers`: the layers whose id is selected, in layer order. */
  function SelectedLayers(ls: seq<Layer>, selected: seq<LayerId>): (r: seq<Layer>)
    ensures forall l | l in r :: l in ls && l.id in selected
    ensures forall l | l in ls && l.id in selected :: l in r
    ensures |r| <= |ls|
  {
    if ls == [] then []
    else
      var rest := SelectedLayers(ls[1..], selected);
      assert forall l | l in ls :: l == ls[0] || l in ls[1..];
      if ls[0].id in selected then [ls[0]] + rest else rest
  }

  /** `selectedElements`: the elements of the selected layers, in layer order. */
  function SelectedElements(ls: seq<Layer>, selected: seq<LayerId>): (r: seq<ElementRef>)
    ensures forall e | e in r :: exists l | l in ls :: l.id in selected && l.element == e
    ensures forall l | l in ls && l.id in selected :: l.element in r
  {
    var sl := SelectedLayers(ls, selected);
    var r := seq(|sl|, i requires 0 <= i < |sl| => sl[i].element);
    assert forall l | l in sl :: l.element in r by {
      forall l | l in sl ensures l.element in r {
        var i :| 0 <= i < |sl| && sl[i] == l;
        assert r[i] == l.element;
      }
    }
    r
  }

  /** `isLayerSelected` agrees with `selectedLayers` for every id some layer carries. */
  lemma SelectedMeansListed(ls: seq<Layer>, selected: seq<LayerId>, id: LayerId)
    requires LayerById(ls, id).Some?
    ensures id in selected <==> exists l | l in SelectedLayers(ls, selected) :: l.id == id
  {
    var l := LayerById(ls, id).value;
    if id in selected {
      assert l in SelectedLayers(ls, selected);
    }
  }

  // ---------------------------------------------------------------- updates

  /** The properties an `updateLayer` call passes to `Object.assign`: a
      field that is absent keeps its value. */
  datatype LayerPatch = LayerPatch(
    id: Option<LayerId>,
    name: Option<string>,
    kind: Option<string>,
    visible: Option<bool>,
    locked: Option<bool>,
    element: Option<ElementRef>,
    createdAt: Option<int>)

  function OrOwn<T>(o: Option<T>, v: T): T
  {
    if o.Some? then o.value else v
  }

  /** `Object.assign(layer, updates)` */
  function Patched(l: Layer, u: LayerPatch): Layer
  {
    Layer(OrOwn(u.id, l.id), OrOwn(u.name, l.name), OrOwn(u.kind, l.kind), OrOwn(u.visible, l.visible),
          OrOwn(u.locked, l.locked), OrOwn(u.element, l.element), OrOwn(u.createdAt, l.createdAt))
  }

  /** Each field of a patched layer is the patch's value when the patch has
      one and the layer's own otherwise; patching twice is patching once, and
      an empty patch changes nothing. */
  lemma PatchLaws(l: Layer, u: LayerPatch)
    ensures var r := Patched(l, u);
      (u.name.Some? ==> r.name == u.name.value) && (u.name.None? ==> r.name == l.name) &&
      (u.visible.Some? ==> r.visible == u.visible.value) && (u.visible.None? ==> r.visible == l.visible) &&
      (u.locked.Some? ==> r.locked == u.locked.value) && (u.locked.None? ==> r.locked == l.locked) &&
      (u.id.None? ==> r.id == l.id) && (u.element.None? ==> r.element == l.element) &&
      Patched(r, u) == r
    ensures Patched(l, LayerPatch(None, None, None, None, None, None, None)) == l
  {
  }

  /** `updateLayer`: the first layer with that id is patched; with no such
      layer nothing changes. */
  function Update(ls: seq<Layer>, id: LayerId, u: LayerPatch): (r: seq<Layer>)
    ensures |r| == |ls|
    ensures forall i :: 0 <= i < |ls| && i != Find(ls, id) ==> r[i] == ls[i]
    ensures Find(ls, id) < |ls| ==> r[Find(ls, id)] == Patched(ls[Find(ls, id)], u)
    ensures Find(ls, id) == |ls| ==> r == ls
  {
    var k := Find(ls, id);
    if k < |ls| then ls[k := Patched(ls[k], u)] else ls
  }

  /** A patch that leaves the id alone keeps every id, so it keeps the ids
      distinct and the lookup finds the patched layer. */
  lemma {:induction false} UpdateKeepsIds(ls: seq<Layer>, id: LayerId, u: LayerPatch)
    requires u.id.None?
    ensures var r := Update(ls, id, u);
      (forall i :: 0 <= i < |ls| ==> r[i].id == ls[i].id) &&
      (UniqueIds(ls) ==> UniqueIds(r)) &&
      (LayerById(ls, id).Some? ==> LayerById(r, id) == Some(Patched(LayerById(ls, id).value, u)))
  {
    var r := Update(ls, id, u);
    assert forall i :: 0 <= i < |ls| ==> r[i].id == ls[i].id;
    FindStable(ls, r, id);
  }

  // ---------------------------------------------------------------- selection

  /** The multi-select branch of `selectLayer`: remove the id when it is
      selected, append it otherwise. */
  function ToggleMember(selected: seq<LayerId>, id: LayerId): (r: seq<LayerId>)
    ensures NoDup(selected) ==> NoDup(r)
    ensures NoDup(selected) ==> (id in r <==> id !in selected)
    ensures forall x | x != id :: x in r <==> x in selected
  {
    if id in selected then
      RemoveFirstKeepsOthers(selected, id);
      RemoveFirst(selected, id)
    else
      assert forall x | x in selected + [id] :: x in selected || x == id;
      selected + [id]
  }

  lemma RemoveFirstKeepsOthers<T>(s: seq<T>, v: T)
    ensures forall x | x != v && x in s :: x in RemoveFirst(s, v)
  {
    if v in s {
      var k := IndexOf(s, v);
      var r := RemoveFirst(s, v);
      assert r == RemoveAt(s, k);
      forall x | x != v && x in s ensures x in r {
        var i :| 0 <= i < |s| && s[i] == x;
        if i < k { assert r[i] == x; } else { assert i != k; assert r[i - 1] == x; }
      }
    }
  }

  /** Toggling an id twice gives back the same selected ids; when the id was
      not selected it gives back the very same list. */
  lemma {:induction false} ToggleTwice(selected: seq<LayerId>, id: LayerId)
    requires NoDup(selected)
    ensures forall x :: x in ToggleMember(ToggleMember(selected, id), id) <==> x in selected
    ensures id !in selected ==> ToggleMember(ToggleMember(selected, id), id) == selected
  {
    var once := ToggleMember(selected, id);
    if id !in selected {
      assert once == selected + [id];
      assert IndexOf(once, id) == |selected|;
      assert RemoveAt(once, |selected|) == selected;
    }
  }

  // ---------------------------------------------------------------- flags

  datatype Flag = Visibility | Lock

  function Toggled(l: Layer, f: Flag): Layer
  {
    match f
    case Visibility => l.(visible := !l.visible)
    case Lock => l.(locked := !l.locked)
  }

  /** `toggleLayerVisibility` / `toggleLayerLock`: negate one flag of the first
      layer with that id. */
  function Flip(ls: seq<Layer>, id: LayerId, f: Flag): (r: seq<Layer>)
    ensures |r| == |ls|
    ensures forall i :: 0 <= i < |ls| ==> r[i].id == ls[i].id
    ensures forall i :: 0 <= i < |ls| && i != Find(ls, id) ==> r[i] == ls[i]
    ensures Find(ls, id) < |ls| ==> r[Find(ls, id)] == Toggled(ls[Find(ls, id)], f)
  {
    var k := Find(ls, id);
    if k < |ls| then ls[k := Toggled(ls[k], f)] else ls
  }

  /** Changing layers without changing their ids does not move `Find`. */
  lemma FindStable(ls: seq<Layer>, ms: seq<Layer>, id: LayerId)
    requires |ms| == |ls|
    requires forall i :: 0 <= i < |ls| ==> ms[i].id == ls[i].id
    ensures Find(ms, id) == Find(ls, id)
  {
    var k, m := Find(ls, id), Find(ms, id);
    if k < |ls| { assert ms[k].id == id; }
    if m < |ms| { assert ls[m].id == id; }
  }

  /** Toggling the same flag twice restores the layer list. */
  lemma {:induction false} FlipTwice(ls: seq<Layer>, id: LayerId, f: Flag)
    ensures Flip(Flip(ls, id, f), id, f) == ls
  {
    var once := Flip(ls, id, f);
    FindStable(ls, once, id);
  }

  /** Toggling one flag leaves the other flag and every other field as it was. */
  lemma {:induction false} FlipChangesOnlyTheFlag(ls: seq<Layer>, id: LayerId, f: Flag)
    ensures var r := Flip(ls, id, f);
      forall i :: 0 <= i < |ls| ==>
        r[i].name == ls[i].name && r[i].element == ls[i].element &&
        (f == Visibility ==> r[i].locked == ls[i].locked) &&
        (f == Lock ==> r[i].visible == ls[i].visible)
  {
  }

  /** `renameLayer`: set both the layer's name and its element's tag. */
  function Rename(ls: seq<Layer>, id: LayerId, name: string): (r: seq<Layer>)
    ensures |r| == |ls|
    ensures forall i :: 0 <= i < |ls| ==> r[i].id == ls[i].id
    ensures forall i :: 0 <= i < |ls| && i != Find(ls, id) ==> r[i] == ls[i]
  {
    var k := Find(ls, id);
    if k < |ls| then ls[k := ls[k].(name := name, element := ls[k].element.(tag := Some(name)))]
    else ls
  }

  /** After a rename, looking the id up finds the new name on the layer and
      on its element; nothing else about the layer changed. */
  lemma {:induction false} RenameThenLookup(ls: seq<Layer>, id: LayerId, name: string)
    requires LayerById(ls, id).Some?
    ensures var l := LayerById(Rename(ls, id, name), id);
      l.Some? && l.value.name == name && l.value.element.tag == Some(name) &&
      l.value.element.id == LayerById(ls, id).value.element.id &&
      l.value.visible == LayerById(ls, id).value.visible &&
      l.value.locked == LayerById(ls, id).value.locked
  {
    FindStable(ls, Rename(ls, id, name), id);
  }

  // ---------------------------------------------------------------- deletion

  /** Deleting from a list with distinct ids removes that id altogether and
      keeps every other layer. */
  lemma {:induction false} DeleteRemovesLayer(ls: seq<Layer>, id: LayerId)
    requires UniqueIds(ls) && Find(ls, id) < |ls|
    ensures var r := RemoveAt(ls, Find(ls, id));
      (forall l | l in r :: l.id != id) &&
      (forall l | l in ls && l.id != id :: l in r) &&
      UniqueIds(r)
  {
    var k := Find(ls, id);
    var r := RemoveAt(ls, k);
    forall l | l in r ensures l.id != id {
      var i :| 0 <= i < |r| && r[i] == l;
      if i < k { assert ls[i] == l; } else { assert ls[i + 1] == l; assert i + 1 != k; }
    }
    forall l | l in ls && l.id != id ensures l in r {
      var i :| 0 <= i < |ls| && ls[i] == l;
      if i < k { assert r[i] == l; } else { assert i != k; assert r[i - 1] == l; }
    }
  }

  // ---------------------------------------------------------------- sync

  function IdsOf(ls: seq<Layer>): set<LayerId>
  {
    set l | l in ls :: l.id
  }

  /** `existingIds.has(element.id)` */
  predicate Known(existing: set<LayerId>, e: ElementRef)
  {
    e.id.Some? && Given(e.id.value) in existing
  }

  /** The layers one `forEach` of the sync creates, given the number of layers
      and the next generator serial before it. */
  function Created(es: seq<ElementRef>, kind: string, existing: set<LayerId>, count: nat, serial: nat, now: int): seq<Layer>
    decreases |es|
  {
    if es == [] then []
    else if Known(existing, es[0]) then Created(es[1..], kind, existing, count, serial, now)
    else
      [NewLayer(es[0], kind, es[0].tag, serial, count, now)] +
      Created(es[1..], kind, existing, count + 1, serial + (if Truthy(es[0].id) then 0 else 1), now)
  }

  /** How many generator serials one `forEach` of the sync consumes. */
  function Used(es: seq<ElementRef>, existing: set<LayerId>): nat
  {
    if es == [] then 0
    else (if !Known(existing, es[0]) && !Truthy(es[0].id) then 1 else 0) + Used(es[1..], existing)
  }

  /** A created layer belongs to one of the elements, one that had no layer,
      and carries that element's id. */
  lemma {:induction false} CreatedFrom(es: seq<ElementRef>, kind: string, existing: set<LayerId>, count: nat, serial: nat, now: int)
    ensures forall l | l in Created(es, kind, existing, count, serial, now) ::
      l.element in es && !Known(existing, l.element) && IdMatches(l)
    decreases |es|
  {
    if es != [] {
      var next := if Known(existing, es[0]) then count else count + 1;
      var s := if Known(existing, es[0]) || Truthy(es[0].id) then serial else serial + 1;
      CreatedFrom(es[1..], kind, existing, next, s, now);
      assert forall e | e in es[1..] :: e in es;
    }
  }

  /** Every element with an id of its own that had no layer gets one. */
  lemma {:induction false} CreatedCovers(es: seq<ElementRef>, kind: string, existing: set<LayerId>, count: nat, serial: nat, now: int, e: ElementRef)
    requires e in es && Truthy(e.id) && !Known(existing, e)
    ensures exists l :: l in Created(es, kind, existing, count, serial, now) && l.id == Given(e.id.value)
    decreases |es|
  {
    var r := Created(es, kind, existing, count, serial, now);
    if es[0] == e {
      assert r[0].id == Given(e.id.value);
    } else {
      assert e in es[1..];
      var next := if Known(existing, es[0]) then count else count + 1;
      var s := if Known(existing, es[0]) || Truthy(es[0].id) then serial else serial + 1;
      CreatedCovers(es[1..], kind, existing, next, s, now, e);
      var l :| l in Created(es[1..], kind, existing, next, s, now) && l.id == Given(e.id.value);
      assert l in r;
    }
  }

  /** The ids of all elements passed to the sync. */
  function ElementIds(es: seq<ElementRef>): set<string>
  {
    set e | e in es && e.id.Some? :: e.id.value
  }

  /** `layers.filter(layer => allElementIds.has(layer.id))`; a generated id is
      never one of the element ids. */
  function KeepIf(ls: seq<Layer>, ids: set<string>): (r: seq<Layer>)
    ensures |r| <= |ls|
  {
    if ls == [] then []
    else if ls[0].id.Given? && ls[0].id.key in ids then [ls[0]] + KeepIf(ls[1..], ids)
    else KeepIf(ls[1..], ids)
  }

  /** The filter keeps exactly the layers whose id is one of `ids`. */
  lemma {:induction false} KeepIfMembers(ls: seq<Layer>, ids: set<string>)
    ensures forall l | l in KeepIf(ls, ids) :: l in ls && l.id.Given? && l.id.key in ids
    ensures forall l | l in ls && l.id.Given? && l.id.key in ids :: l in KeepIf(ls, ids)
    decreases |ls|
  {
    if ls != [] {
      KeepIfMembers(ls[1..], ids);
      assert forall l | l in ls :: l == ls[0] || l in ls[1..];
    }
  }

  lemma {:induction false} KeepIfAppend(a: seq<Layer>, b: seq<Layer>, ids: set<string>)
    ensures KeepIf(a + b, ids) == KeepIf(a, ids) + KeepIf(b, ids)
    decreases |a|
  {
    if a == [] {
      assert a + b == b;
    } else {
      assert (a + b)[0] == a[0];
      assert (a + b)[1..] == a[1..] + b;
      KeepIfAppend(a[1..], b, ids);
    }
  }

  function AllElementIds(lines: seq<ElementRef>, shapes: seq<ElementRef>, images: seq<ElementRef>, texts: seq<ElementRef>): set<string>
  {
    ElementIds(lines + shapes + images + texts)
  }

  /** The layer list and the generator position while the sync runs. */
  datatype Progress = Progress(layers: seq<Layer>, serial: nat)

  /** One `forEach` of the sync, checked against the ids `existing` the layers
      had before the sync began. */
  function Stage(p: Progress, es: seq<ElementRef>, kind: string, existing: set<LayerId>, now: int): (q: Progress)
    ensures p.layers <= q.layers
  {
    Progress(p.layers + Created(es, kind, existing, |p.layers|, p.serial, now), p.serial + Used(es, existing))
  }

  /** The state after the four `forEach` loops of `syncLayersFromElements`. */
  function AfterAdds(ls: seq<Layer>, serial: nat, lines: seq<ElementRef>, shapes: seq<ElementRef>, images: seq<ElementRef>, texts: seq<ElementRef>, now: int): (q: Progress)
    ensures ls <= q.layers
  {
    var ex := IdsOf(ls);
    Stage(Stage(Stage(Stage(Progress(ls, serial), lines, "line", ex, now), shapes, "shape", ex, now), images, "image", ex, now), texts, "text", ex, now)
  }

  /** The layer list `syncLayersFromElements` leaves behind. */
  function Synced(ls: seq<Layer>, serial: nat, lines: seq<ElementRef>, shapes: seq<ElementRef>, images: seq<ElementRef>, texts: seq<ElementRef>, now: int): seq<Layer>
  {
    KeepIf(AfterAdds(ls, serial, lines, shapes, images, texts, now).layers, AllElementIds(lines, shapes, images, texts))
  }

  /** A stage keeps every layer, adds only layers of its elements that had none,
      and adds one for every element with an id of its own that had none. */
  lemma StageProperties(p: Progress, es: seq<ElementRef>, kind: string, existing: set<LayerId>, now: int)
    ensures var q := Stage(p, es, kind, existing, now);
      (forall l | l in q.layers :: l in p.layers || (l.element in es && !Known(existing, l.element) && IdMatches(l))) &&
      (forall e | e in es && Truthy(e.id) && !Known(existing, e) :: exists l :: l in q.layers && l.id == Given(e.id.value))
  {
    var made := Created(es, kind, existing, |p.layers|, p.serial, now);
    var q := Stage(p, es, kind, existing, now);
    CreatedFrom(es, kind, existing, |p.layers|, p.serial, now);
    forall e | e in es && Truthy(e.id) && !Known(existing, e) ensures exists l :: l in q.layers && l.id == Given(e.id.value) {
      CreatedCovers(es, kind, existing, |p.layers|, p.serial, now, e);
      var l :| l in made && l.id == Given(e.id.value);
      assert l in q.layers;
    }
  }

  /** What the four loops leave: the old layers first, then only layers of
      passed elements that had none, and a layer for every passed element
      with an id of its own. */
  lemma {:induction false} AfterAddsProperties(ls: seq<Layer>, serial: nat, lines: seq<ElementRef>, shapes: seq<ElementRef>, images: seq<ElementRef>, texts: seq<ElementRef>, now: int)
    ensures var q := AfterAdds(ls, serial, lines, shapes, images, texts, now).layers;
      var all := lines + shapes + images + texts;
      (forall l | l in q :: l in ls || (l.element in all && !Known(IdsOf(ls), l.element) && IdMatches(l))) &&
      (forall e | e in all && Truthy(e.id) :: exists l :: l in q && l.id == Given(e.id.value))
  {
    var ex := IdsOf(ls);
    var all := lines + shapes + images + texts;
    var p0 := Progress(ls, serial);
    var p1 := Stage(p0, lines, "line", ex, now);
    var p2 := Stage(p1, shapes, "shape", ex, now);
    var p3 := Stage(p2, images, "image", ex, now);
    var p4 := Stage(p3, texts, "text", ex, now);
    assert p4 == AfterAdds(ls, serial, lines, shapes, images, texts, now);
    StageProperties(p0, lines, "line", ex, now);
    StageProperties(p1, shapes, "shape", ex, now);
    StageProperties(p2, images, "image", ex, now);
    StageProperties(p3, texts, "text", ex, now);
    assert forall l | l in p1.layers :: l in p4.layers by {
      assert p1.layers <= p2.layers <= p3.layers <= p4.layers;
    }
    assert forall l | l in p2.layers :: l in p4.layers by {
      assert p2.layers <= p3.layers <= p4.layers;
    }
    assert forall l | l in p3.layers :: l in p4.layers;
    forall e | e in all && Truthy(e.id) ensures exists l :: l in p4.layers && l.id == Given(e.id.value) {
      if Known(ex, e) {
        var l :| l in ls && l.id == Given(e.id.value);
        assert l in p4.layers;
      } else if e in lines {
        var l :| l in p1.layers && l.id == Given(e.id.value);
      } else if e in shapes {
        var l :| l in p2.layers && l.id == Given(e.id.value);
      } else if e in images {
        var l :| l in p3.layers && l.id == Given(e.id.value);
      } else {
        assert e in texts;
      }
    }
  }

  /** After the sync every layer has the id of one of the passed elements,
      every passed element with an id of its own has a layer with that id,
      the layers that already existed for passed elements are kept as they
      were and ahead of the new ones, and a new layer is made only for an
      element that had none. */
  lemma {:induction false} SyncProperties(ls: seq<Layer>, serial: nat, lines: seq<ElementRef>, shapes: seq<ElementRef>, images: seq<ElementRef>, texts: seq<ElementRef>, now: int)
    ensures var r := Synced(ls, serial, lines, shapes, images, texts, now);
      var ids := AllElementIds(lines, shapes, images, texts);
      var all := lines + shapes + images + texts;
      (forall l | l in r :: l.id.Given? && l.id.key in ids) &&
      (forall e | e in all && Truthy(e.id) :: exists l :: l in r && l.id == Given(e.id.value)) &&
      |KeepIf(ls, ids)| <= |r| && r[..|KeepIf(ls, ids)|] == KeepIf(ls, ids) &&
      (forall l | l in r && l !in ls :: l.element in all && !Known(IdsOf(ls), l.element))
  {
    var ids := AllElementIds(lines, shapes, images, texts);
    var all := lines + shapes + images + texts;
    var q := AfterAdds(ls, serial, lines, shapes, images, texts, now).layers;
    var r := KeepIf(q, ids);
    AfterAddsProperties(ls, serial, lines, shapes, images, texts, now);
    assert q == ls + q[|ls|..];
    KeepIfAppend(ls, q[|ls|..], ids);
    KeepIfMembers(q, ids);
    forall e | e in all && Truthy(e.id) ensures exists l :: l in r && l.id == Given(e.id.value) {
      assert e.id.value in ids;
      var l :| l in q && l.id == Given(e.id.value);
      assert l in r;
    }
  }

  // ---------------------------------------------------------------- the store

  class LayerStore {
    var layers: seq<Layer>
    var selected: seq<LayerId>
    var active: Option<LayerId>
    /** The id generator's position: the serial of the next generated id. */
    var nextSerial: nat

    /** The selection never holds an id twice. */
    predicate Valid()
      reads this
    {
      NoDup(selected)
    }

    constructor()
      ensures layers == [] && selected == [] && active == None && Valid()
    {
      layers := [];
      selected := [];
      active := None;
      nextSerial := 0;
    }

    /** `createLayer`: append one visible, unlocked layer for the element. */
    method CreateLayer(e: ElementRef, kind: string, name: Option<string>, now: int) returns (layer: Layer)
      modifies this
      ensures layers == old(layers) + [layer]
      ensures layer == NewLayer(e, kind, name, old(nextSerial), |old(layers)|, now)
      ensures layer.visible && !layer.locked && layer.element == e && layer.kind == kind
      ensures layer.id == (if Truthy(e.id) then Given(e.id.value) else Generated(old(nextSerial)))
      ensures layer.name == (if Truthy(name) then name.value else DefaultName(kind, |old(layers)|))
      ensures nextSerial == old(nextSerial) + (if Truthy(e.id) then 0 else 1)
      ensures selected == old(selected) && active == old(active)
    {
      layer := NewLayer(e, kind, name, nextSerial, |layers|, now);
      if !Truthy(e.id) {
        nextSerial := nextSerial + 1;
      }
      layers := layers + [layer];
    }

    /** `deleteLayer`: remove the first layer with the id, drop the id from
        the selection and clear the active id when it was that layer; an
        unknown id changes nothing. */
    method DeleteLayer(id: LayerId)
      requires Valid()
      modifies this
      ensures Valid()
      ensures Find(old(layers), id) == |old(layers)| ==>
        layers == old(layers) && selected == old(selected) && active == old(active)
      ensures Find(old(layers), id) < |old(layers)| ==>
        layers == RemoveAt(old(layers), Find(old(layers), id)) &&
        selected == RemoveFirst(old(selected), id) && id !in selected &&
        active == (if old(active) == Some(id) then None else old(active))
      ensures nextSerial == old(nextSerial)
    {
      var k := Find(layers, id);
      if k < |layers| {
        layers := RemoveAt(layers, k);
        selected := RemoveFirst(selected, id);
        if active == Some(id) {
          active := None;
        }
      }
    }

    /** `selectLayer`: a single selection becomes exactly `[id]`; a
        multi-selection toggles the id. Either way `id` becomes active. */
    method SelectLayer(id: LayerId, multiSelect: bool)
      requires Valid()
      modifies this
      ensures Valid()
      ensures !multiSelect ==> selected == [id]
      ensures multiSelect ==> selected == ToggleMember(old(selected), id)
      ensures multiSelect ==> (id in selected <==> id !in old(selected))
      ensures active == Some(id)
      ensures layers == old(layers) && nextSerial == old(nextSerial)
    {
      if multiSelect {
        selected := ToggleMember(selected, id);
      } else {
        selected := [id];
      }
      active := Some(id);
    }

    /** `clearSelection` */
    method ClearSelection()
      modifies this
      ensures Valid()
      ensures selected == [] && active == None
      ensures layers == old(layers) && nextSerial == old(nextSerial)
    {
      selected := [];
      active := None;
    }

    /** `toggleLayerVisibility` */
    method ToggleLayerVisibility(id: LayerId)
      modifies this
      ensures layers == Flip(old(layers), id, Visibility)
      ensures selected == old(selected) && active == old(active) && nextSerial == old(nextSerial)
    {
      var k := Find(layers, id);
      if k < |layers| {
        layers := layers[k := layers[k].(visible := !layers[k].visible)];
      }
    }

    /** `toggleLayerLock` */
    method ToggleLayerLock(id: LayerId)
      modifies this
      ensures layers == Flip(old(layers), id, Lock)
      ensures selected == old(selected) && active == old(active) && nextSerial == old(nextSerial)
    {
      var k := Find(layers, id);
      if k < |layers| {
        layers := layers[k := layers[k].(locked := !layers[k].locked)];
      }
    }

    /** `updateLayer` */
    method UpdateLayer(id: LayerId, u: LayerPatch)
      modifies this
      ensures layers == Update(old(layers), id, u)
      ensures selected == old(selected) && active == old(active) && nextSerial == old(nextSerial)
    {
      var k := Find(layers, id);
      if k < |layers| {
        layers := layers[k := Patched(layers[k], u)];
      }
    }

    /** `isLayerSelected` */
    method IsLayerSelected(id: LayerId) returns (b: bool)
      ensures b <==> id in selected
      ensures LayerById(layers, id).Some? ==> (b <==> exists l | l in SelectedLayers(layers, selected) :: l.id == id)
    {
      b := id in selected;
      if LayerById(layers, id).Some? {
        SelectedMeansListed(layers, selected, id);
      }
    }

    /** `renameLayer` */
    method RenameLayer(id: LayerId, name: string)
      modifies this
      ensures layers == Rename(old(layers), id, name)
      ensures selected == old(selected) && active == old(active) && nextSerial == old(nextSerial)
    {
      var k := Find(layers, id);
      if k < |layers| {
        var l := layers[k];
        layers := layers[k := l.(name := name, element := l.element.(tag := Some(name)))];
      }
    }

    /** `clearLayers` */
    method ClearLayers()
      modifies this
      ensures Valid()
      ensures layers == [] && selected == [] && active == None
      ensures nextSerial == old(nextSerial)
    {
      layers := [];
      selected := [];
      active := None;
    }

    /** One `forEach` of the sync: a layer for each element whose id was not
        among `existing`. */
    method AddMissing(es: seq<ElementRef>, kind: string, existing: set<LayerId>, now: int)
      modifies this
      ensures Progress(layers, nextSerial) == Stage(Progress(old(layers), old(nextSerial)), es, kind, existing, now)
      ensures selected == old(selected) && active == old(active)
    {
      ghost var p := Progress(layers, nextSerial);
      var i := 0;
      assert es[0..] == es;
      while i < |es|
        invariant 0 <= i <= |es|
        invariant Stage(p, es, kind, existing, now) == Stage(Progress(layers, nextSerial), es[i..], kind, existing, now)
        invariant selected == old(selected) && active == old(active)
      {
        StageAt(Progress(layers, nextSerial), es, i, kind, existing, now);
        if !Known(existing, es[i]) {
          var _ := CreateLayer(es[i], kind, es[i].tag, now);
        }
        i := i + 1;
      }
      assert es[i..] == [];
    }

    /** `syncLayersFromElements` */
    method SyncLayersFromElements(lines: seq<ElementRef>, shapes: seq<ElementRef>, images: seq<ElementRef>, texts: seq<ElementRef>, now: int)
      modifies this
      ensures layers == Synced(old(layers), old(nextSerial), lines, shapes, images, texts, now)
      ensures selected == old(selected) && active == old(active)
    {
      var existing := IdsOf(layers);
      AddMissing(lines, "line", existing, now);
      AddMissing(shapes, "shape", existing, now);
      AddMissing(images, "image", existing, now);
      AddMissing(texts, "text", existing, now);
      layers := KeepIf(layers, AllElementIds(lines, shapes, images, texts));
    }
  }

  /** The stage over the elements from `i` on, as one element's step and the
      stage over the elements after it. */
  lemma StageAt(p: Progress, es: seq<ElementRef>, i: nat, kind: string, existing: set<LayerId>, now: int)
    requires i < |es|
    ensures Stage(p, es[i..], kind, existing, now) ==
      Stage(if Known(existing, es[i]) then p
            else Progress(p.layers + [NewLayer(es[i], kind, es[i].tag, p.serial, |p.layers|, now)],
                          p.serial + (if Truthy(es[i].id) then 0 else 1)),
            es[i + 1..], kind, existing, now)
  {
    StageStep(p, es[i..], kind, existing, now);
    assert es[i..][1..] == es[i + 1..];
  }

  /** A stage over a non-empty list is one element's step followed by the
      stage over the rest. */
  lemma StageStep(p: Progress, es: seq<ElementRef>, kind: string, existing: set<LayerId>, now: int)
    requires es != []
    ensures Stage(p, es, kind, existing, now) ==
      Stage(if Known(existing, es[0]) then p
            else Progress(p.layers + [NewLayer(es[0], kind, es[0].tag, p.serial, |p.layers|, now)],
                          p.serial + (if Truthy(es[0].id) then 0 else 1)),
            es[1..], kind, existing, now)
  {
    if !Known(existing, es[0]) {
      var l := NewLayer(es[0], kind, es[0].tag, p.serial, |p.layers|, now);
      assert p.layers + ([l] + Created(es[1..], kind, existing, |p.layers| + 1, p.serial + (if Truthy(es[0].id) then 0 else 1), now))
        == (p.layers + [l]) + Created(es[1..], kind, existing, |p.layers| + 1, p.serial + (if Truthy(es[0].id) then 0 else 1), now);
    }
  }
}
