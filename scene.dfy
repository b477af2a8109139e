/** The scene graph: the `Shape` base class (src/Shape.ts), `Group`
    (src/Group.ts) and the `Canvas` root container (src/Canvas.ts). They
    refer to one another (a shape knows its canvas and its parent group, a
    canvas holds shapes), so they share one module.

    There is no inheritance here: a group is a `Shape` whose `kind` is
    `GroupKind`, and the group operations require that kind, as TypeScript
    only offers them on `Group`. A shape's event-emitter part is the
    `EventEmitter` object it owns. */
module Scene {
  import opened Wrappers
  import opened Seqs
  import opened Events
  import opened Drawing

  /** The type of the custom event a shape sends its canvas to ask for a
      redraw. */
  const CANVAS_RERENDER_EVENT_TYPE := "canvas:rerender"

  /** The prefix `raiseError` puts in front of every message. */
  const ERROR_PREFIX := "[canvas-lib]: "

  /** `canvasStylesMap`: the attribute names copied onto a drawing context. */
  const CanvasStyleKeys: set<string> := {
    "fillStyle", "strokeStyle", "lineCap", "lineDashOffset", "lineJoin",
    "lineWidth", "miterLimit", "filter", "globalAlpha",
    "globalCompositeOperation", "shadowBlur", "shadowColor", "shadowOffsetX",
    "shadowOffsetY", "direction", "font", "textAlign", "textBaseline"
  }

  /** The names `applyShapeAttrsToContext` destructures out before copying
      styles. */
  const PositionKeys: set<string> := {"x", "y", "transform", "width", "height"}

  /** The shape's `type` tag. */
  datatype Kind = ShapeKind | GroupKind | TextKind | Primitive(name: string)

  /** The parts of a DOM mouse event the core reads. */
  datatype MouseEvent = MouseEvent(offsetX: int, offsetY: int, eventType: string)

  /** The payload `_emitMouseEvent` hands to listeners. */
  datatype MousePosition = MousePosition(offsetX: int, offsetY: int, eventType: string, target: Shape)

  /** Arguments passed to shape listeners. */
  datatype Arg = PositionArg(position: MousePosition) | EventArg(event: MouseEvent) | ShapeArg(shape: Shape)

  /** `canvas.emit(CANVAS_RERENDER_EVENT_TYPE, shape)`: a redraw request sent
      to a canvas. */
  datatype Rerender = Rerender(canvas: Canvas, eventType: string, source: Shape)

  /** `attrs[key]`, `undefined` when absent. */
  function AttrValue(attrs: map<string, Value>, key: string): Value
  {
    if key in attrs then attrs[key] else Undefined
  }

  /** The calls `fillOrStroke` makes: stroke when `strokeStyle` is truthy,
      fill when `fillStyle` is truthy, stroke first. */
  function FillOrStrokeCalls(attrs: map<string, Value>, path: Option<Path2D>): (calls: seq<CtxCall<Shape>>)
    ensures Stroke(path) in calls <==> Truthy(AttrValue(attrs, "strokeStyle"))
    ensures Fill(path) in calls <==> Truthy(AttrValue(attrs, "fillStyle"))
    ensures forall c :: c in calls ==> c == Stroke(path) || c == Fill(path)
    ensures |calls| <= 2
    ensures |calls| == 2 ==> calls == [Stroke(path), Fill(path)]
  {
    (if Truthy(AttrValue(attrs, "strokeStyle")) then [Stroke(path)] else [])
    + (if Truthy(AttrValue(attrs, "fillStyle")) then [Fill(path)] else [])
  }

  /** The calls made by rendering `shapes` one after the other, each between
      `save` and `restore` with its style applied first; `owner` is the group
      whose style is combined in (`None` at the canvas). */
  function Bracketed(owner: Option<Shape>, shapes: seq<Shape>): (calls: seq<CtxCall<Shape>>)
    ensures |calls| == 4 * |shapes|
  {
    if |shapes| == 0 then []
    else
      Bracketed(owner, shapes[..|shapes| - 1]) + Block(owner, shapes[|shapes| - 1])
  }

  /** A bracketed render is one four-call block per shape, in list order:
      `save`, the style, the shape's own drawing, `restore`. */
  lemma {:induction false} BracketedLayout(owner: Option<Shape>, shapes: seq<Shape>)
    ensures |Bracketed(owner, shapes)| == 4 * |shapes|
    ensures forall i :: 0 <= i < |shapes| ==>
      && Bracketed(owner, shapes)[4 * i] == Save
      && Bracketed(owner, shapes)[4 * i + 1] == ApplyCanvasStyle(owner, shapes[i])
      && Bracketed(owner, shapes)[4 * i + 2] == RenderShape(shapes[i])
      && Bracketed(owner, shapes)[4 * i + 3] == Restore
  {
    if |shapes| > 0 {
      var n := |shapes| - 1;
      var init, last := shapes[..n], shapes[n];
      BracketedLayout(owner, init);
      var prefix, block := Bracketed(owner, init), Block(owner, last);
      assert Bracketed(owner, shapes) == prefix + block;
      forall i | 0 <= i < |shapes|
        ensures (prefix + block)[4 * i] == Save
        ensures (prefix + block)[4 * i + 1] == ApplyCanvasStyle(owner, shapes[i])
        ensures (prefix + block)[4 * i + 2] == RenderShape(shapes[i])
        ensures (prefix + block)[4 * i + 3] == Restore
      {
        if i < n {
          assert init[i] == shapes[i];
        } else {
          assert 4 * i == |prefix|;
        }
      }
    }
  }

  /** One shape's part of a bracketed render: its styling and drawing lie
      inside a single `save`/`restore` pair. */
  function Block(owner: Option<Shape>, shape: Shape): (calls: seq<CtxCall<Shape>>)
    ensures |calls| == 4 && calls[0] == Save && calls[|calls| - 1] == Restore
    ensures Save !in calls[1..|calls| - 1] && Restore !in calls[1..|calls| - 1]
    ensures calls[1] == ApplyCanvasStyle(owner, shape) && calls[2] == RenderShape(shape)
  {
    [Save, ApplyCanvasStyle(owner, shape), RenderShape(shape), Restore]
  }

  lemma BracketedSnoc(owner: Option<Shape>, shapes: seq<Shape>, i: nat)
    requires i < |shapes|
    ensures Bracketed(owner, shapes[..i + 1]) == Bracketed(owner, shapes[..i]) + Block(owner, shapes[i])
  {
    assert shapes[..i + 1][..i] == shapes[..i];
  }

  /** `ctx.save(); applyCanvasStyleToContext(...); shape.render(ctx); ctx.restore()`. */
  method DrawBracketed(ctx: Context<Shape>, owner: Option<Shape>, shape: Shape)
    modifies ctx
    ensures ctx.trace == old(ctx.trace) + Block(owner, shape) && ctx.fields == old(ctx.fields)
  {
    ctx.Call(Save);
    ctx.Call(ApplyCanvasStyle(owner, shape));
    ctx.Call(RenderShape(shape));
    ctx.Call(Restore);
  }

  /** The context fields `applyShapeAttrsToContext` writes: every own
      attribute named in `canvasStylesMap`, never position or size. */
  function StyleEntries(attrs: map<string, Value>): (r: map<string, Value>)
    ensures r.Keys <= CanvasStyleKeys
    ensures forall k :: k in r <==> k in attrs && k in CanvasStyleKeys
    ensures forall k :: k in r ==> r[k] == attrs[k]
    ensures forall k :: k in PositionKeys ==> k !in r
  {
    map k | k in attrs && k !in PositionKeys && k in CanvasStyleKeys :: attrs[k]
  }

  /** What TypeScript's `ShapeAttrs` type guarantees of the position part:
      `x` and `y` are numbers, `transform` a six-entry matrix (each may be
      left undefined). */
  predicate PositionTyped(attrs: map<string, Value>)
  {
    && (AttrValue(attrs, "x").Num? || AttrValue(attrs, "x").Undefined?)
    && (AttrValue(attrs, "y").Num? || AttrValue(attrs, "y").Undefined?)
    && (match AttrValue(attrs, "transform")
        case Matrix(m) => |m| == 6
        case Undefined => true
        case _ => false)
  }

  /** A destructured number with a default for `undefined`. */
  function NumberOr(v: Value, default: int): int
    requires v.Num? || v.Undefined?
  {
    if v.Num? then v.n else default
  }

  /** `ctx.transform(a, b, c, d, x + t[4], y + t[5])` for a group, with
      `x = y = 0` and the identity matrix as defaults. */
  function GroupTransform(attrs: map<string, Value>): (c: CtxCall<Shape>)
    requires PositionTyped(attrs)
    ensures c.Transform?
    ensures AttrValue(attrs, "transform").Undefined? ==>
      c == Transform(1, 0, 0, 1, NumberOr(AttrValue(attrs, "x"), 0), NumberOr(AttrValue(attrs, "y"), 0))
    ensures AttrValue(attrs, "transform").Matrix? ==>
      var t := AttrValue(attrs, "transform").m;
      c.a == t[0] && c.b == t[1] && c.c == t[2] && c.d == t[3] &&
      c.e == NumberOr(AttrValue(attrs, "x"), 0) + t[4] &&
      c.f == NumberOr(AttrValue(attrs, "y"), 0) + t[5]
  {
    var x := NumberOr(AttrValue(attrs, "x"), 0);
    var y := NumberOr(AttrValue(attrs, "y"), 0);
    var t := if AttrValue(attrs, "transform").Matrix? then AttrValue(attrs, "transform").m else [1, 0, 0, 1, 0, 0];
    Transform(t[0], t[1], t[2], t[3], x + t[4], y + t[5])
  }

  /** `applyShapeAttrsToContext(ctx, attrs, isGroup)`: copy the style
      attributes onto the context, and for a group compose its translation
      and transform into the context's matrix. */
  method ApplyShapeAttrsToContext(ctx: Context<Shape>, attrs: map<string, Value>, isGroup: bool)
    requires isGroup ==> PositionTyped(attrs)
    modifies ctx
    ensures ctx.fields == old(ctx.fields) + StyleEntries(attrs)
    ensures ctx.trace == old(ctx.trace) + (if isGroup then [GroupTransform(attrs)] else [])
  {
    var rest := attrs - PositionKeys;
    var keys := rest.Keys;
    ghost var done: set<string> := {};
    while keys != {}
      invariant keys + done == rest.Keys && keys !! done
      invariant ctx.fields == old(ctx.fields) + map k | k in done && k in CanvasStyleKeys :: rest[k]
      invariant ctx.trace == old(ctx.trace)
      decreases keys
    {
      var key :| key in keys;
      if key in CanvasStyleKeys {
        ctx.SetField(key, rest[key]);
      }
      keys := keys - {key};
      done := done + {key};
    }
    assert (map k | k in done && k in CanvasStyleKeys :: rest[k]) == StyleEntries(attrs);
    if isGroup {
      ctx.Call(GroupTransform(attrs));
    }
  }

  class Shape {
    const kind: Kind
    /** The shape's own event registry (`Shape extends EventEmitter`). */
    const emitter: EventEmitter<Arg>
    var attrs: map<string, Value>
    var canvas: Canvas?
    var parent: Shape?
    /** The back-reference `ShapeContainer.remove` clears. */
    var group: Shape?
    /** The hit-test colour key, `""` when unassigned. */
    var color: string
    /** A group's children, in drawing order. */
    var shapes: seq<Shape>

    constructor (kind: Kind, attrs: map<string, Value>)
      ensures this.kind == kind && this.attrs == attrs
      ensures canvas == null && parent == null && group == null && color == "" && shapes == []
      ensures fresh(emitter) && emitter.events == map[]
    {
      this.kind := kind;
      this.attrs := attrs;
      canvas := null;
      parent := null;
      group := null;
      color := "";
      shapes := [];
      emitter := new EventEmitter<Arg>();
    }

    /** `attr(key)` / `attr(key, value)`. A falsy `value` (an omitted one
        included) reads the attribute; a truthy one writes it and asks for a
        redraw, returning nothing. */
    method Attr(key: string, value: Value) returns (r: Value, requests: seq<Rerender>)
      modifies this`attrs
      ensures !Truthy(value) ==> attrs == old(attrs) && r == AttrValue(attrs, key) && requests == []
      ensures Truthy(value) ==> attrs == old(attrs)[key := value] && r == Undefined
      ensures Truthy(value) && canvas == null ==> requests == []
      ensures Truthy(value) && canvas != null ==> requests == [Rerender(canvas, CANVAS_RERENDER_EVENT_TYPE, this)]
      ensures forall k :: k != key ==> AttrValue(attrs, k) == AttrValue(old(attrs), k)
    {
      if !Truthy(value) {
        return AttrValue(attrs, key), [];
      }
      SetAttr(key, value);
      requests := EmitCanvasRerender();
      r := Undefined;
    }

    /** `_setAttr`: write one attribute without asking for a redraw. */
    method SetAttr(key: string, value: Value)
      modifies this`attrs
      ensures attrs == old(attrs)[key := value]
    {
      attrs := attrs[key := value];
    }

    /** `_emitCanvasRerender`: one redraw request to the owning canvas, none
        when there is no canvas. */
    method EmitCanvasRerender() returns (requests: seq<Rerender>)
      ensures canvas == null ==> requests == []
      ensures canvas != null ==> requests == [Rerender(canvas, CANVAS_RERENDER_EVENT_TYPE, this)]
    {
      requests := [];
      if canvas != null {
        requests := [Rerender(canvas, CANVAS_RERENDER_EVENT_TYPE, this)];
      }
    }

    /** `fillOrStroke(ctx, path)`. */
    method FillOrStroke(ctx: Context<Shape>, path: Option<Path2D>)
      modifies ctx
      ensures ctx.trace == old(ctx.trace) + FillOrStrokeCalls(attrs, path)
      ensures ctx.fields == old(ctx.fields)
    {
      if Truthy(AttrValue(attrs, "strokeStyle")) {
        ctx.Call(Stroke(path));
      }
      if Truthy(AttrValue(attrs, "fillStyle")) {
        ctx.Call(Fill(path));
      }
    }

    /** The base class's `render`: always raises. */
    function BaseRender(): (r: Outcome<string>)
      ensures r.Fail? && r.error == ERROR_PREFIX + "render method not implemented"
    {
      Fail(ERROR_PREFIX + "render method not implemented")
    }

    /** The base class's `renderHit`: always raises. */
    function BaseRenderHit(): (r: Outcome<string>)
      ensures r.Fail? && r.error == ERROR_PREFIX + "renderHit method not implemented"
    {
      Fail(ERROR_PREFIX + "renderHit method not implemented")
    }

    /** `chain` is this shape's ancestry: its parent, the parent's parent, and
        so on, ending with a shape that has no parent. */
    ghost predicate IsAncestry(chain: seq<Shape>)
      reads this, chain
    {
      && (if |chain| == 0 then parent == null else parent == chain[0])
      && (forall i :: 0 <= i < |chain| - 1 ==> chain[i].parent == chain[i + 1])
      && (|chain| > 0 ==> chain[|chain| - 1].parent == null)
    }

    /** `_getShapeParents`: the ancestors, nearest first. The walk ends only
        when the parent chain does, so it needs a finite chain. */
    method GetShapeParents(ghost chain: seq<Shape>) returns (groups: seq<Shape>)
      requires IsAncestry(chain)
      ensures groups == chain
    {
      groups := [];
      var current := parent;
      while current != null
        invariant |groups| <= |chain|
        invariant groups == chain[..|groups|]
        invariant current == if |groups| < |chain| then chain[|groups|] else null
        decreases |chain| - |groups|
      {
        groups := groups + [current];
        current := current.parent;
      }
    }

    /** `_getMousePosition`: the payload, whose target is this shape. */
    function GetMousePosition(e: MouseEvent): (p: MousePosition)
      ensures p.target == this && p.eventType == e.eventType
      ensures p.offsetX == e.offsetX && p.offsetY == e.offsetY
    {
      MousePosition(e.offsetX, e.offsetY, e.eventType, this)
    }

    /** `_emitMouseEvent`: emit on this shape, then on every ancestor, nearest
        first, all with the same payload. `lists[j]` are the listeners the
        ancestor `chain[j]` has for the event's type; `targets` lists the
        emitters used, `calls` the listener invocations. */
    method EmitMouseEvent(e: MouseEvent, ghost chain: seq<Shape>, ghost lists: seq<seq<Listener>>)
      returns (targets: seq<Shape>, calls: seq<Call<Arg>>)
      requires IsAncestry(chain)
      requires |lists| == |chain|
      requires forall j :: 0 <= j < |chain| ==> Registered(chain[j].emitter.events, e.eventType) == lists[j]
      modifies emitter, set p | p in chain :: p.emitter
      ensures targets == [this] + chain
      ensures calls == Dispatch(old(Registered(emitter.events, e.eventType)), [PositionArg(GetMousePosition(e))])
                       + Broadcast(lists, [PositionArg(GetMousePosition(e))])
      ensures forall s, k :: s in [this] + chain ==> Registered(s.emitter.events, k) == old(Registered(s.emitter.events, k))
    {
      var position := GetMousePosition(e);
      var args := [PositionArg(position)];
      calls := emitter.Emit(position.eventType, args);
      label Emitted:
      var parents := GetShapeParents(chain);
      var more := EmitOnEach(parents, position.eventType, args, lists);
      forall s, k | s in [this] + chain
        ensures Registered(s.emitter.events, k) == old(Registered(s.emitter.events, k))
      {
        if s.emitter == emitter {
          if p :| p in chain && p.emitter == emitter {
            assert Registered(p.emitter.events, k) == old@Emitted(Registered(p.emitter.events, k));
          }
        } else {
          assert s in chain;
          assert old@Emitted(s.emitter.events) == old(s.emitter.events);
        }
      }
      calls := calls + more;
      targets := [this] + parents;
    }

    /** `add` of a group: append, keeping duplicates and the existing order. */
    method Add(shape: Shape)
      requires kind.GroupKind?
      modifies this`shapes
      ensures shapes == old(shapes) + [shape]
    {
      shapes := shapes + [shape];
    }

    /** `remove` of a group: drop the first occurrence, if any. */
    method Remove(shape: Shape)
      requires kind.GroupKind?
      modifies this`shapes
      ensures shapes == RemoveFirst(old(shapes), shape)
    {
      var index := IndexOf(shapes, shape);
      if index > -1 {
        shapes := RemoveAt(shapes, index);
      }
    }

    /** `getShapeInstance` of a group: its children. */
    function GetShapeInstance(): (r: seq<Shape>)
      requires kind.GroupKind?
      reads this
      ensures r == shapes
    {
      shapes
    }

    /** `render` of a group: each child in order between `save` and
        `restore`, with the group's and the child's styles applied. */
    method RenderGroup(ctx: Context<Shape>)
      requires kind.GroupKind?
      modifies ctx
      ensures ctx.trace == old(ctx.trace) + Bracketed(Some(this), shapes)
      ensures ctx.fields == old(ctx.fields)
    {
      var i := 0;
      while i < |shapes|
        invariant 0 <= i <= |shapes|
        invariant ctx.trace == old(ctx.trace) + Bracketed(Some(this), shapes[..i])
        invariant ctx.fields == old(ctx.fields)
      {
        DrawBracketed(ctx, Some(this), shapes[i]);
        BracketedSnoc(Some(this), shapes, i);
        i := i + 1;
      }
      assert shapes[..i] == shapes;
    }
  }

  /** `shapes.forEach(s => s.emit(t, ...args))`, where `lists[j]` are the
      listeners `shapes[j]` has for `t`. */
  method EmitOnEach(shapes: seq<Shape>, t: string, args: seq<Arg>, ghost lists: seq<seq<Listener>>) returns (calls: seq<Call<Arg>>)
    requires |lists| == |shapes|
    requires forall j :: 0 <= j < |shapes| ==> Registered(shapes[j].emitter.events, t) == lists[j]
    modifies set s | s in shapes :: s.emitter
    ensures calls == Broadcast(lists, args)
    ensures forall s, k :: s in shapes ==> Registered(s.emitter.events, k) == old(Registered(s.emitter.events, k))
  {
    calls := [];
    var i := 0;
    while i < |shapes|
      invariant 0 <= i <= |shapes|
      invariant calls == Broadcast(lists[..i], args)
      invariant forall s, k :: s in shapes ==> Registered(s.emitter.events, k) == old(Registered(s.emitter.events, k))
    {
      var emitter := shapes[i].emitter;
      assert emitter in set s | s in shapes :: s.emitter;
      assert Registered(emitter.events, t) == lists[i];
      var more := emitter.Emit(t, args);
      assert lists[..i + 1][..i] == lists[..i];
      calls := calls + more;
      i := i + 1;
    }
    assert lists[..i] == lists;
  }

  /** The `clearRect` a canvas makes to clear itself: none without an element. */
  function ClearCalls(element: Option<Element>): (calls: seq<CtxCall<Shape>>)
    ensures element.None? <==> calls == []
    ensures |calls| <= 1
    ensures forall c :: c in calls ==>
      c.ClearRect? && c.x == 0 && c.y == 0 && c.w == element.value.width && c.h == element.value.height
  {
    match element
    case None => []
    case Some(el) => [ClearRect(0, 0, el.width, el.height)]
  }

  class Canvas {
    const ctx: Context<Shape>
    var shapes: seq<Shape>

    /** The constructor installs listeners on `ctx.canvas` without checking
        it, so a context with no canvas element throws. */
    constructor (ctx: Context<Shape>)
      requires ctx.element.Some?
      ensures this.ctx == ctx && shapes == []
    {
      this.ctx := ctx;
      shapes := [];
    }

    /** `add(shape)`: append the shape's children (`getShapeInstance`, which
        only a group has: on any other shape the call throws before anything
        changes), then draw the shape once. */
    method Add(shape: Shape) returns (r: Outcome<string>)
      modifies this`shapes, ctx
      ensures !shape.kind.GroupKind? ==> r.Fail? && shapes == old(shapes) && ctx.trace == old(ctx.trace)
      ensures shape.kind.GroupKind? ==> r == Pass && shapes == old(shapes) + old(shape.shapes)
      ensures shape.kind.GroupKind? ==> ctx.trace == old(ctx.trace) + Bracketed(None, [shape])
      ensures ctx.fields == old(ctx.fields)
    {
      if !shape.kind.GroupKind? {
        return Fail("shape.getShapeInstance is not a function");
      }
      shapes := shapes + shape.GetShapeInstance();
      DrawBracketed(ctx, None, shape);
      assert Bracketed(None, [shape]) == Block(None, shape) by {
        assert [shape][..0] == [];
      }
      r := Pass;
    }

    /** `remove(shape)`: drop the first occurrence, if any, then redraw. */
    method Remove(shape: Shape)
      modifies this`shapes, ctx
      ensures shapes == RemoveFirst(old(shapes), shape)
      ensures ctx.trace == old(ctx.trace) + ClearCalls(ctx.element) + Bracketed(None, shapes)
      ensures ctx.fields == old(ctx.fields)
    {
      var index := IndexOf(shapes, shape);
      if index > -1 {
        shapes := RemoveAt(shapes, index);
      }
      Render();
    }

    /** `clear()`: forget every shape and clear the drawing. */
    method Clear()
      modifies this`shapes, ctx
      ensures shapes == []
      ensures ctx.trace == old(ctx.trace) + ClearCalls(ctx.element)
      ensures ctx.fields == old(ctx.fields)
    {
      shapes := [];
      ClearCanvas();
    }

    /** `clearCanvas()`: clear the whole element, if there is one. */
    method ClearCanvas()
      modifies ctx
      ensures ctx.trace == old(ctx.trace) + ClearCalls(ctx.element)
      ensures ctx.fields == old(ctx.fields)
    {
      if ctx.element.None? {
        return;
      }
      ctx.Call(ClearRect(0, 0, ctx.element.value.width, ctx.element.value.height));
    }

    /** `render()`: clear, then draw every shape in list order, each between
        `save` and `restore`. */
    method Render()
      modifies ctx
      ensures ctx.trace == old(ctx.trace) + ClearCalls(ctx.element) + Bracketed(None, shapes)
      ensures ctx.fields == old(ctx.fields)
    {
      ClearCanvas();
      ghost var cleared := ctx.trace;
      var list := shapes;
      var i := 0;
      while i < |list|
        invariant 0 <= i <= |list|
        invariant ctx.trace == cleared + Bracketed(None, list[..i])
        invariant ctx.fields == old(ctx.fields)
      {
        DrawBracketed(ctx, None, list[i]);
        BracketedSnoc(None, list, i);
        i := i + 1;
      }
      assert list[..i] == list;
    }

    /** `_emitShapeEvents(e)`: reverse `shapes` in place, then emit `e` on the
        first shape of the reversed list that `hit` accepts (the shape's own
        `isPointInShape` at the event's offset), and on no shape if none does. */
    method EmitShapeEvents(e: MouseEvent, hit: Shape -> bool) returns (target: Shape?, calls: seq<Call<Arg>>)
      modifies this`shapes, set s | s in shapes :: s.emitter
      ensures shapes == Reverse(old(shapes))
      ensures Find(shapes, hit).None? ==> target == null && calls == []
      ensures Find(shapes, hit).Some? ==> target == shapes[Find(shapes, hit).value]
      ensures target != null ==>
        calls == Dispatch(Registered(old(target.emitter.events), e.eventType), [EventArg(e), ShapeArg(target)])
      ensures forall s, k :: s in old(shapes) ==> Registered(s.emitter.events, k) == old(Registered(s.emitter.events, k))
    {
      shapes := Reverse(shapes);
      var found := Find(shapes, hit);
      if found.None? {
        return null, [];
      }
      target := shapes[found.value];
      assert target == old(shapes)[|shapes| - 1 - found.value];
      calls := target.emitter.Emit(e.eventType, [EventArg(e), ShapeArg(target)]);
    }
  }

  /** Two dispatches in a row leave `shapes` in its original order. */
  method DispatchTwice(c: Canvas, e: MouseEvent, hit: Shape -> bool)
    modifies c`shapes, set s | s in c.shapes :: s.emitter
    ensures c.shapes == old(c.shapes)
  {
    var _, _ := c.EmitShapeEvents(e, hit);
    var _, _ := c.EmitShapeEvents(e, hit);
    ReverseReverse(old(c.shapes));
  }
}
