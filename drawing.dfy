/** What the core needs of a 2D drawing context, and the attribute values it
    stores: the context is a map of style fields plus the trace of the drawing
    calls made on it. The drawing itself is not modelled. */
module Drawing {
  import opened Wrappers

  /** A JavaScript value held in an attribute bag or a context field. Numbers
      are modelled as integers. */
  datatype Value =
    | Undefined
    | Num(n: int)
    | Str(s: string)
    | Bool(b: bool)
    | Matrix(m: seq<int>)
    | Object(id: nat)

  /** JavaScript truthiness: `undefined`, `0`, `''` and `false` are falsy;
      arrays and objects are truthy. */
  predicate Truthy(v: Value)
  {
    match v
    case Undefined => false
    case Num(n) => n != 0
    case Str(s) => s != ""
    case Bool(b) => b
    case Matrix(_) => true
    case Object(_) => true
  }

  /** One UTF-16 code unit. A JavaScript string is a sequence of these:
      `length` and `slice` count and cut code units, so a character outside
      the Basic Multilingual Plane takes two of them (a surrogate pair). */
  type CodeUnit = c: int | 0 <= c < 0x1_0000

  /** A JavaScript string as the text-drawing calls see it. */
  type Utf16 = seq<CodeUnit>

  /** A `Path2D` argument, by identity. */
  datatype Path2D = Path2D(id: nat)

  /** The drawing calls the core makes. `S` is the type of shape references:
      `ApplyCanvasStyle` and `RenderShape` stand for calls into code that is
      not part of this model (`applyCanvasStyleToContext` and a shape's own
      `render`). */
  datatype CtxCall<S> =
    | Save
    | Restore
    | Transform(a: int, b: int, c: int, d: int, e: int, f: int)
    | Fill(path: Option<Path2D>)
    | Stroke(path: Option<Path2D>)
    | FillText(text: Utf16, x: int, y: int)
    | StrokeText(text: Utf16, x: int, y: int)
    | ClearRect(x: int, y: int, w: int, h: int)
    | ApplyCanvasStyle(owner: Option<S>, shape: S)
    | RenderShape(shape: S)

  /** The `canvas` element behind a context, by its size. */
  datatype Element = Element(width: int, height: int)

  class Context<S> {
    var fields: map<string, Value>
    var trace: seq<CtxCall<S>>
    /** `ctx.canvas`, which may be missing. */
    const element: Option<Element>

    constructor (element: Option<Element>)
      ensures this.element == element && fields == map[] && trace == []
    {
      this.element := element;
      fields := map[];
      trace := [];
    }

    /** Make one drawing call. */
    method Call(c: CtxCall<S>)
      modifies this
      ensures trace == old(trace) + [c] && fields == old(fields)
    {
      trace := trace + [c];
    }

    /** `ctx[key] = value`. */
    method SetField(key: string, value: Value)
      modifies this
      ensures fields == old(fields)[key := value] && trace == old(trace)
    {
      fields := fields[key := value];
    }
  }
}
