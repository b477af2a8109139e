# canvas-lib bookkeeping, modelled in Dafny

canvas-lib draws a retained scene of shapes and groups on an HTML canvas and
dispatches mouse events to them. This project models the library's
bookkeeping and proves properties about it. The drawing itself is not
modelled. The model covers:

- **Listener registry** (`EventEmitter`): a map from event type to an ordered
  list of listeners. It is modelled by the class `Events.EventEmitter`. A listener is
  identified by reference (`Listener(id)`). An `emit` returns its
  invocations as a trace of `Call(listener, args)`.
- **Hit-colour registry** (`HitCanvas`): a map from unique `rgb(r,g,b)`
  keys to shapes, with retry on collision. This is `HitTesting`. The random
  source is the sequence of colours it produces.
- **Scene graph** (`Shape`, `Group`, `Canvas`): the module `Scene`.
  - A group is a `Shape` whose `kind` is `GroupKind`.
  - A shape owns its `EventEmitter`.
  - A 2D context (`Drawing.Context`) is a map of style fields plus a trace of
    the drawing calls made on it.
  - Calls into code outside the model are abstract trace entries:
    `ApplyCanvasStyle` for `applyCanvasStyleToContext` and `RenderShape`
    for a shape's own `render`.
  - A shape's redraw request to its canvas is returned as a `Rerender`
    value.
- **Shape containers** (`ShapeContainer`, `containerMixin`): the modules
  `ShapeContainers` and `ContainerMixins`. A value of any JavaScript type
  passed to `add` is an `Item`, either a shape or some other value.
- **Tree walks** (`eachBefore`, `eachAfter`): the explicit-stack walks
  copied from d3-hierarchy. They are in `PreOrderWalk` and `PostOrderWalk`
  and are proved equal to the recursive orders of `Hierarchy`. The callback
  is modelled by the sequence of nodes it is called with.
- **Text** (`Text`): hit-testing by its box, the ellipsis truncation of
  `render`, and `fillOrStrokeText`. This is `TextShape`.
  - Text is a sequence of UTF-16 code units (`Drawing.Utf16`), as
    JavaScript's `length` and `slice` count it.
  - `measureText(s).width` is a parameter `measure: Utf16 -> nat`.
  - A text's attributes are the typed record its interface declares.

Numbers are integers. JavaScript truthiness is `Drawing.Truthy`.

## Model

| member | source | states |
|---|---|---|
| Events.Registered | src/EventEmitter.ts:22 | a type that was never registered reads as the empty list; otherwise its stored list |
| Events.EventEmitter.constructor | src/EventEmitter.ts:10-13 | a new emitter has no listeners |
| Events.EventEmitter.On | src/EventEmitter.ts:21-24 | `fn` is appended at the end of the list for `t`, a duplicate included; every other type's list is unchanged |
| Events.EventEmitter.Off | src/EventEmitter.ts:32-38 | the list for `t` loses only the first occurrence of `fn` (no change when absent); a missing type is left with an empty list; other types are unchanged |
| Events.EventEmitter.Emit | src/EventEmitter.ts:46-49 | one invocation per registration, in registration order, all with the same arguments; the registry is unchanged except that a missing type now holds an empty list, so an unregistered type invokes nothing and every type reads the same listeners as before |
| Events.Dispatch | src/EventEmitter.ts:48 | as many calls as listeners, call `i` being listener `i` with the given arguments |
| Events.DispatchAppend | src/EventEmitter.ts:48 | a listener registered last is invoked last |
| Events.OnThenOff | src/EventEmitter.ts:21-38 | `on` then `off` of the same listener keeps the multiset of listeners for `t`, keeps the list identical when the listener was not registered, and leaves other types alone |
| Events.Broadcast | src/Shape.ts:193-195 | every invocation made by emitting on a list of emitters carries the same arguments |
| Events.BroadcastFirst | src/Shape.ts:193-195 | emitting on a list of emitters invokes the first one's listeners before all the others' |
| Seqs.IndexOf | src/Group.ts:22 | `indexOf`: -1 exactly when the element is absent, otherwise the position of its first occurrence |
| Seqs.RemoveAt | src/Group.ts:24 | `splice(i, 1)`: one element shorter, the elements before `i` kept and those after it shifted down by one |
| Seqs.RemoveFirst | src/Group.ts:21-26 | `indexOf` then `splice`: unchanged when absent, otherwise one shorter with one copy fewer of the element and every other element kept |
| Seqs.RemoveFirstSplit | src/Group.ts:21-26 | only the first occurrence is removed: in `a + [x] + b` with `x` not in `a` the result is `a + b`, later copies in `b` included |
| Seqs.AppendThenRemoveFirst | src/Group.ts:18-26 | `add` then `remove` of a shape keeps the multiset of children, and restores the list when the shape was absent |
| Seqs.Reverse | src/Canvas.ts:68 | `reverse()`: the same length, element `i` taken from position `n - 1 - i` |
| Seqs.ReverseReverse | src/Canvas.ts:68 | reversing twice restores the original order |
| Seqs.ReverseAppend | src/eachAfter.ts:10-12 | reversal turns a concatenation around |
| Seqs.Find | src/Canvas.ts:68-70 | `find`: none exactly when no element satisfies the predicate, otherwise the index of the first element that does |
| Scene.FillOrStrokeCalls | src/Shape.ts:165-173 | strokes if and only if `strokeStyle` is truthy, fills if and only if `fillStyle` is truthy, stroke before fill, nothing else |
| Scene.Shape.FillOrStroke | src/Shape.ts:165-173 | appends exactly those calls to the context's trace and leaves its fields alone |
| Scene.Shape.BaseRender | src/Shape.ts:174-176 | the base `render` always fails with the prefixed message `[canvas-lib]: render method not implemented` |
| Scene.Shape.BaseRenderHit | src/Shape.ts:177-179 | the base `renderHit` always fails with the prefixed message `[canvas-lib]: renderHit method not implemented` |
| Scene.Shape.constructor | src/Shape.ts:108-111 | a new shape has the given attributes, no canvas, no parent or group, the empty colour, no children, and an emitter with no listeners |
| Scene.Shape.Attr | src/Shape.ts:121-125 | a falsy value (0, '', false, undefined) only reads the attribute; a truthy one sets that key alone, returns nothing, and asks for one redraw exactly when the shape has a canvas; every other attribute is unchanged |
| Scene.Shape.SetAttr | src/Shape.ts:136-138 | writes the one key, with no redraw |
| Scene.Shape.EmitCanvasRerender | src/Shape.ts:207-209 | one `canvas:rerender` request from this shape to its canvas; none without a canvas |
| Scene.Shape.GetShapeParents | src/Shape.ts:180-188 | for a finite parent chain, returns exactly that chain, nearest ancestor first, ending at the shape with no parent |
| Scene.Shape.GetMousePosition | src/Shape.ts:197-206 | the payload copies the offsets and the event type and names this shape as its target |
| Scene.Shape.EmitMouseEvent | src/Shape.ts:189-196 | emits on the shape itself, then on every ancestor nearest first; the invocations are this shape's listeners followed by each ancestor's in turn, all with the one payload whose target is the originating shape; every one of these shapes keeps the listeners it had, for every type |
| Scene.EmitOnEach | src/Shape.ts:193-195 | `parents.forEach(p => p.emit(t, ...))` invokes each emitter's listeners in list order, and leaves every one of them with the listeners it had, for every type |
| Scene.StyleEntries | src/Shape.ts:218-231 | the fields copied are exactly the attributes present that are named in `canvasStylesMap`, with their values; `x`, `y`, `transform`, `width` and `height` never are |
| Scene.GroupTransform | src/Shape.ts:234-243 | `transform(a, b, c, d, x + t[4], y + t[5])`, with `x = y = 0` and the identity matrix when these are undefined |
| Scene.ApplyShapeAttrsToContext | src/Shape.ts:212-244 | the context's fields gain exactly the style entries; a group's call adds its transform to the trace and any other call adds nothing |
| Scene.Shape.Add | src/Group.ts:18-20 | the child is appended; duplicates are kept and the existing order is preserved |
| Scene.Shape.Remove | src/Group.ts:21-26 | the first occurrence of the child is removed; no change when it is absent |
| Scene.Shape.GetShapeInstance | src/Group.ts:27-29 | a group's current children |
| Scene.Shape.RenderGroup | src/Group.ts:30-38 | the trace gains, for each child in list order, `save`, the combined style of the group and the child, the child's render and `restore`; the context's fields are untouched |
| Scene.Bracketed | src/Canvas.ts:54-59 | rendering a list of shapes makes four calls per shape |
| Scene.Block | src/Group.ts:32-36 | `save`, the combined style, the shape's own drawing, `restore`: the styling and drawing happen inside one `save`/`restore` pair, with no other `save` or `restore` between them |
| Scene.BracketedLayout | src/Canvas.ts:52-60 | a bracketed render is four calls per shape in list order: block `i` is `save`, the style of shape `i`, its render and `restore` |
| Scene.DrawBracketed | src/Canvas.ts:55-58 | one shape's `save`, style, render, `restore` |
| Scene.Canvas.constructor | src/Canvas.ts:16-25 | a new canvas draws through the given context, which must have a canvas element, and holds no shapes |
| Scene.Canvas.Add | src/Canvas.ts:29-35 | a group's children are appended after the existing shapes, which keep their order, and the group is drawn once between `save` and `restore`; a non-group shape throws before anything changes |
| Scene.Canvas.Remove | src/Canvas.ts:36-42 | the first occurrence is removed, or nothing when the shape is absent; the canvas redraws in both cases |
| Scene.Canvas.Clear | src/Canvas.ts:43-46 | no shapes are left, and the canvas is cleared |
| Scene.ClearCalls | src/Canvas.ts:48-50 | clearing is at most one `clearRect`, from the origin over the element's whole width and height, and none exactly when there is no element |
| Scene.Canvas.ClearCanvas | src/Canvas.ts:47-51 | one `clearRect` over the whole element; nothing without an element |
| Scene.Canvas.Render | src/Canvas.ts:52-60 | clears the canvas first, then draws every shape in list order, each bracketed by `save` and `restore` |
| Scene.Canvas.EmitShapeEvents | src/Canvas.ts:66-74 | `shapes` is reversed in place; the event reaches at most one shape, the first in the reversed list that the hit test accepts; that shape's listeners receive the event and the shape; nothing is emitted when no shape is hit; every shape keeps the listeners it had, for every type |
| Scene.DispatchTwice | src/Canvas.ts:68 | two dispatches in a row restore the original order of `shapes` |
| ShapeContainers.ShapeContainer.constructor | src/ShapeContainer.ts:5 | a new container is empty |
| ShapeContainers.ShapeContainer.GetShapes | src/ShapeContainer.ts:6-8 | the current list |
| ShapeContainers.ShapeContainer.Add | src/ShapeContainer.ts:9-12 | a shape is appended; any other value leaves the list unchanged |
| ShapeContainers.ShapeContainer.Remove | src/ShapeContainer.ts:13-19 | a present shape loses its first occurrence and has its `group` cleared; an absent one changes nothing, its `group` included |
| ShapeContainers.ShapeContainer.RemoveAll | src/ShapeContainer.ts:20-22 | the list is empty |
| ContainerMixins.Container.constructor | src/containerMixin.ts:5 | a new container is empty |
| ContainerMixins.Container.Add | src/containerMixin.ts:6-9 | a shape is appended; any other value leaves the list unchanged |
| ContainerMixins.Container.Remove | src/containerMixin.ts:10-16 | a present shape loses its first occurrence, the others keeping their order, and has its `parent` cleared; an absent one changes nothing, its `parent` included |
| ContainerMixins.Container.RemoveAll | src/containerMixin.ts:17-19 | the list is empty |
| HitTesting.Decimal | src/HitCanvas.ts:65 | a number is printed as a non-empty run of decimal digits, one digit exactly below 10, at most three below 1000, with no leading zero |
| HitTesting.ColorKey | src/HitCanvas.ts:65 | a key is `rgb(` … `)`, 10 to 16 characters long |
| HitTesting.DecimalInjective | src/HitCanvas.ts:65 | distinct numbers print differently |
| HitTesting.ColorKeyInjective | src/HitCanvas.ts:62-65 | distinct colours get distinct `rgb(r,g,b)` keys, so a key names one colour |
| HitTesting.ColorKeyNotEmpty | src/HitCanvas.ts:65 | every key starts with `rgb(`, so none is the empty "no colour" string |
| HitTesting.RandomColor | src/HitCanvas.ts:61-68 | the key returned is of the form `rgb(r,g,b)` with components in 0..255, and was not in the registry |
| HitTesting.RandomColorIsFirstFree | src/HitCanvas.ts:61-68 | draws whose key is taken are retried; the key chosen is the first free draw |
| HitTesting.HitCanvas.constructor | src/HitCanvas.ts:28-32 | `width` and `height` are the constructor options, and the registry is empty |
| HitTesting.HitCanvas.Add | src/HitCanvas.ts:43-48 | a shape that has a colour is left alone; otherwise it gets a new non-empty key that was not in use, and that key is registered to it; consistency of the registry is preserved |
| HitTesting.HitCanvas.Remove | src/HitCanvas.ts:49-52 | as written: the colour is cleared and only the `""` entry is deleted, so the old key still maps to the shape and a consistent registry becomes inconsistent |
| HitTesting.HitCanvas.Release | src/HitCanvas.ts:49-52 | the intended removal: the shape's own entry is deleted and its colour cleared, which preserves consistency |
| HitTesting.RemoveThenAdd | src/HitCanvas.ts:43-52 | a shape removed and added again gets a colour different from its stale one, which stays registered |
| Hierarchy.PreOrderLength | src/eachBefore.ts:3-9 | pre-order lists as many nodes as the tree has |
| Hierarchy.PostOrderLength | src/eachAfter.ts:3-12 | post-order lists as many nodes as the tree has |
| Hierarchy.PreAndPostSameNodes | src/eachAfter.ts:3-12 | pre-order and post-order list the same nodes |
| Hierarchy.ReverseMirroredPreOrder | src/eachAfter.ts:4-12 | reversing the node-then-children-right-to-left order gives post-order |
| Hierarchy.PreForestRLAppend | src/eachAfter.ts:6-8 | children pushed after the rest of the stack are collected before it |
| Hierarchy.PostOrderSubtreeBefore | src/eachAfter.ts:10-12 | every node is visited directly after its whole subtree: the entries ending at it are its own post-order |
| PreOrderWalk.EachBefore | src/eachBefore.ts:2-10 | the callback sees exactly the recursive pre-order: the node, then its children's subtrees left to right; the loop ends because what the stack still holds shrinks by one node per pop |
| PreOrderWalk.StackOfReversed | src/eachBefore.ts:5-7 | children pushed in reverse come off the stack left to right |
| PreOrderWalk.EachBeforeVisitsAll | src/eachBefore.ts:3-9 | every node is visited once, the root first |
| PostOrderWalk.EachAfter | src/eachAfter.ts:2-13 | the callback sees exactly the recursive post-order; the first loop collects every node before the second makes the first callback |
| PostOrderWalk.EachAfterVisitsAll | src/eachAfter.ts:3-12 | every node is visited once, the same nodes as the pre-order walk, the root last |
| TextShape.InRange | src/Text.ts:54 | lodash `inRange`: half-open, and the bounds are swapped when the end is below the start |
| TextShape.IsPointInShape | src/Text.ts:51-55 | false whenever `width` or `height` is 0 or missing |
| TextShape.PointInPositiveBox | src/Text.ts:54 | for a positive width and height, inside exactly when `x <= px < x + width` and `y <= py < y + height` |
| TextShape.BoxEdges | src/Text.ts:54 | the near corner is inside, the far edges are not |
| TextShape.Cut | src/Text.ts:37 | `slice(0, length - 2)`: a prefix two UTF-16 code units shorter, the empty string from one code unit; a surrogate pair may be split |
| TextShape.TextRoom | src/Text.ts:31-33 | the room for the text is `maxWidth` less the ellipsis width and a margin of 10, so at most `maxWidth - 10` |
| TextShape.Shorten | src/Text.ts:34-39 | the loop keeps a prefix; it shortens a non-empty text whose width exceeds the room; it stops at once only for an empty text or a fitting width, and otherwise at a cut that is empty or fits the room |
| TextShape.Truncated | src/Text.ts:30-39 | the text kept is a prefix, shorter than a non-empty original, and empty or fitting the room |
| TextShape.TruncatedFits | src/Text.ts:30-39 | the text kept is a prefix of the original; a non-empty text always loses code units, because the loop starts with the width set to `maxWidth`; it is empty or fits `maxWidth - (measure('...') + 10)`; it is an even number of code units shorter; every longer candidate was too wide |
| TextShape.ShortTextStillCut | src/Text.ts:30-39 | as written, "Hi" at 5 per code unit with `maxWidth` 100 fits the room of 75 and is still cut to nothing |
| TextShape.Fitted | src/Text.ts:25-39 | the intended truncation: a prefix of the text, the whole text when it fits the room, and otherwise empty or fitting |
| TextShape.DrawnText | src/Text.ts:26-40 | without `maxWidth`, the text as it is; with it, a prefix of the text followed by `...` |
| TextShape.WithFont | src/Text.ts:21-23 | a non-empty `font` is set on the context, nothing else changes |
| TextShape.Render | src/Text.ts:18-41 | sets the font, then makes exactly one `fillText` call at `(x, y)` with the drawn text |
| TextShape.FillOrStrokeTextCalls | src/Text.ts:42-50 | fills if and only if `fillStyle` is truthy, strokes if and only if `strokeStyle` is truthy, fill before stroke, nothing else |
| TextShape.FillOrStrokeText | src/Text.ts:42-50 | appends exactly those calls and leaves the fields alone |

## Left out

- Drawing: pixel output, `Path2D` geometry, and the shapes in `src/Rect.ts`, `src/Arc.ts`, `src/Polygon.ts`, `src/Line.ts`, `src/Image.ts` and `src/Path.ts`. They use floating-point trigonometry or are thin wrappers over canvas calls.
- `applyCanvasStyleToContext`, called by `Canvas` and `Group`, is not defined in `src/Shape.ts` at this revision. It is an abstract trace entry, and so is each shape's own `render`.
- HitCanvas raster I/O: `getImageData`, `getContext`, `clearCanvas`, the `OffscreenCanvas` and its context, and `pixelRatio`. These are I/O or read browser globals.
- HitTesting.RandomColor: `Math.random` is replaced by a finite sequence of draws, and the function requires one of them to be free. The source retries without bound.
- Canvas DOM wiring: the `click`/`contextmenu` listeners and the rerender listener the constructor installs. Canvas has no `emit` at this revision, so a redraw request is a returned `Rerender` value, not an event.
- Scene.Canvas.EmitShapeEvents: `isPointInShape` on each shape is a foreign call. It is the hit predicate passed in.
- Numbers are integers: no floating point, `NaN` or `Infinity`.
- Events.Registered: `events` is a plain object, so a type named after an `Object.prototype` member (`toString`, `constructor`, `__proto__`) reads an inherited value, and `on`, `off` and `emit` then throw. The model treats such a type like any other name.
- Scene.Shape.constructor: the source keeps the caller's attribute object and `_setAttr` writes into it, so shapes built from one object, and the caller, share later writes. The model gives each shape its own attribute map.
- Scene.Canvas.constructor: a context without a canvas element makes the source's constructor throw when it installs its listeners. The model demands the element instead of modelling that failure.
- `canvasStylesMap[key]` would also accept inherited `Object.prototype` names. Only the eighteen listed names are modelled.
- Events.EventEmitter.Emit: a listener that calls `on` or `off` while `emit` is iterating is not modelled. Listeners are not run; they are recorded as calls.
- PreOrderWalk.EachBefore and PostOrderWalk.EachAfter: the tree is finite and well formed. A falsy child, which ends the JavaScript loops early, is not modelled.
- `setData`, `getData` and `attrs()` on `Shape` are plain field accessors and are not modelled.
- Text.render also computes `height` and an initial `width` that it never reads. Those dead stores are not modelled, and neither is `parseInt` of the font.
- `src/utils.ts`: `raiseError` is modelled as a `Fail` carrying the prefixed message. `pixelRatio` and `pxByRatio` are not modelled.
- A text's attributes are a typed record. A shape's general attributes are a map of JavaScript values.
- `src/types.ts`, `src/index.ts`, `src/constant.ts` and `example/main.ts` hold types, re-exports, constants and a demo. They are not part of this model.
- ShapeContainers.ShapeContainer.GetShapes: the source hands out its live private array, so a caller can push any value into it, past the shape check of `add`, or splice it. The model returns the list as a value.
- Scene.Shape.GetShapeInstance: the source hands out the group's live `shapes` array, and `Canvas.add` concatenates it into a new array. The model returns the children as a value, so changes through the returned array are not captured.
- Scene.Shape.GetShapeParents: with a cyclic parent chain the source's `while` loop never ends. The model takes the finite chain as a ghost argument and does not cover the cyclic case.
- No hover, drag or click-distance gesture handling appears in these sources, so none is modelled.

## Findings

| source | as written | input that shows it | evidently intended | confidence | as-written member | corrected member |
|---|---|---|---|---|---|---|
| src/HitCanvas.ts:49-52 | `remove` sets `shape.color = ''` and then deletes `colorHash[shape.color]`, which is `colorHash['']` | a shape added with key `rgb(1,2,3)` and then removed: `colorHash['rgb(1,2,3)']` still maps to it, while its colour is `''` | delete the shape's own key, then clear its colour | high (not executed) | HitTesting.HitCanvas.Remove | HitTesting.HitCanvas.Release |
| src/Text.ts:30-39 | `width = maxWidth` just before the loop, and `currentWidth` starts from it, so the first test always sees `maxWidth > maxWidth - (measure('...') + 10)` and cuts every non-empty text at least once | "Hi" at 5 per code unit with `maxWidth` 100: width 10 fits the room of 75, yet it is drawn as `...` | start from the measured width at line 25, so a text that fits is drawn whole | medium (not executed) | TextShape.ShortTextStillCut | TextShape.Fitted |
