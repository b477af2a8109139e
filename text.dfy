/** The `Text` shape (src/Text.ts): hit-testing by its box, the ellipsis
    truncation of `render`, and `fillOrStrokeText`. Text is a sequence of
    UTF-16 code units, as JavaScript counts it. A text's attribute bag is
    the typed record its interface declares. Text measurement is a parameter:
    `measure(s)` is `ctx.measureText(s).width` under the context's font. */
module TextShape {
  import opened Wrappers
  import opened Drawing
  import opened Scene

  datatype TextAttrs = TextAttrs(
    x: int,
    y: int,
    text: Utf16,
    font: Option<string>,
    maxWidth: Option<int>,
    width: Option<int>,
    height: Option<int>,
    fillStyle: Value,
    strokeStyle: Value)

  /** Truthiness of an optional number: missing and `0` are falsy. */
  predicate Given(n: Option<int>)
  {
    n.Some? && n.value != 0
  }

  /** lodash `inRange(n, start, end)`: half-open, with the bounds swapped when
      `end < start`. */
  function InRange(n: int, start: int, end: int): (b: bool)
    ensures start <= end ==> (b <==> start <= n < end)
    ensures end < start ==> (b <==> end <= n < start)
  {
    var lo := if start < end then start else end;
    var hi := if start < end then end else start;
    lo <= n < hi
  }

  /** `isPointInShape`: inside the box `x..x+width` by `y..y+height`. */
  function IsPointInShape(attrs: TextAttrs, px: int, py: int): (inside: bool)
    ensures !Given(attrs.width) || !Given(attrs.height) ==> !inside
  {
    if !Given(attrs.width) || !Given(attrs.height) then false
    else
      InRange(px, attrs.x, attrs.x + attrs.width.value)
      && InRange(py, attrs.y, attrs.y + attrs.height.value)
  }

  /** For a box of positive size, a point is inside exactly when it lies in
      the half-open box. */
  lemma PointInPositiveBox(attrs: TextAttrs, px: int, py: int)
    requires attrs.width.Some? && attrs.width.value > 0
    requires attrs.height.Some? && attrs.height.value > 0
    ensures IsPointInShape(attrs, px, py) <==>
      && attrs.x <= px < attrs.x + attrs.width.value
      && attrs.y <= py < attrs.y + attrs.height.value
  {
  }

  /** The box's far edges are outside it and its near corner inside. */
  lemma BoxEdges(attrs: TextAttrs)
    requires attrs.width.Some? && attrs.width.value > 0
    requires attrs.height.Some? && attrs.height.value > 0
    ensures IsPointInShape(attrs, attrs.x, attrs.y)
    ensures !IsPointInShape(attrs, attrs.x + attrs.width.value, attrs.y)
    ensures !IsPointInShape(attrs, attrs.x, attrs.y + attrs.height.value)
  {
    PointInPositiveBox(attrs, attrs.x, attrs.y);
    PointInPositiveBox(attrs, attrs.x + attrs.width.value, attrs.y);
    PointInPositiveBox(attrs, attrs.x, attrs.y + attrs.height.value);
  }

  /** `'...'`, as three code units. */
  const Ellipsis: Utf16 := [0x2E, 0x2E, 0x2E]

  /** `s.slice(0, s.length - 2)`: lengths count UTF-16 code units, and a
      negative end counts from the end and is clamped at zero, so one code
      unit becomes the empty string. A surrogate pair may be split. */
  function Cut(s: Utf16): (r: Utf16)
    ensures |r| == if |s| >= 2 then |s| - 2 else 0
    ensures r <= s
  {
    s[..if |s| >= 2 then |s| - 2 else 0]
  }

  /** `_maxWidth`: the room left for the text once the ellipsis and a margin
      of 10 are set aside. */
  function TextRoom(maxWidth: int, measure: Utf16 -> nat): (room: int)
    ensures room <= maxWidth - 10
    ensures room == maxWidth - 10 - measure(Ellipsis)
  {
    maxWidth - (measure(Ellipsis) + 10)
  }

  /** The truncation loop from the state (`current`, `width`): it keeps a
      prefix, shortens a non-empty text that is too wide, and stops either
      at once (the text is empty or `width` fits) or at a cut that is empty
      or measures within the room. */
  function Shorten(current: Utf16, width: int, room: int, measure: Utf16 -> nat): (r: Utf16)
    ensures r <= current
    ensures current != [] && width > room ==> |r| < |current|
    ensures r == current ==> current == [] || width <= room
    ensures r != current ==> r == [] || measure(r) <= room
    decreases |current|
  {
    if current != [] && width > room then
      var next := Cut(current);
      Shorten(next, measure(next), room, measure)
    else
      current
  }

  /** The text `render` keeps before the ellipsis: the loop starts with the
      width taken to be `maxWidth` itself, which always exceeds the room, so
      a non-empty text is always shortened. */
  function Truncated(text: Utf16, maxWidth: int, measure: Utf16 -> nat): (r: Utf16)
    ensures r <= text
    ensures text != [] ==> |r| < |text|
    ensures r == [] || measure(r) <= TextRoom(maxWidth, measure)
  {
    Shorten(text, maxWidth, TextRoom(maxWidth, measure), measure)
  }

  /** The candidates the loop tries are `text` cut by two code units at a
      time; this is the `j`-th one, for `j >= 1`, when it is still non-empty. */
  ghost predicate TooWideCandidates(text: Utf16, shorterThan: nat, room: int, measure: Utf16 -> nat)
  {
    forall j :: 1 <= j && |text| - 2 * j > shorterThan ==> measure(text[..|text| - 2 * j]) > room
  }

  lemma {:induction false} ShortenFrom(text: Utf16, current: Utf16, width: int, room: int, measure: Utf16 -> nat)
    requires current <= text
    requires current == [] || (|text| - |current|) % 2 == 0
    requires current == text ==> width > room
    requires current != text ==> width == measure(current)
    requires TooWideCandidates(text, |current|, room, measure)
    ensures var r := Shorten(current, width, room, measure);
      && r <= text
      && (text != [] ==> |r| < |text|)
      && (r == [] || measure(r) <= room)
      && (r == [] || (|text| - |r|) % 2 == 0)
      && TooWideCandidates(text, |r|, room, measure)
    decreases |current|
  {
    if current != [] && width > room {
      var next := Cut(current);
      assert next <= text && |next| < |current|;
      forall j | 1 <= j && |text| - 2 * j > |next|
        ensures measure(text[..|text| - 2 * j]) > room
      {
        if |text| - 2 * j <= |current| {
          assert |text| - 2 * j == |current|;
          assert text[..|text| - 2 * j] == current;
        }
      }
      ShortenFrom(text, next, measure(next), room, measure);
    }
  }

  /** What the truncation keeps: a prefix of the text, shorter than a
      non-empty text (the loop always runs once, since the starting width
      `maxWidth` exceeds the room), either empty or fitting the room, cut by
      an even number of code units, and the longest such candidate: every
      longer one was too wide. */
  lemma TruncatedFits(text: Utf16, maxWidth: int, measure: Utf16 -> nat)
    ensures var r := Truncated(text, maxWidth, measure);
      && r <= text
      && (text != [] ==> |r| < |text|)
      && (r == [] || measure(r) <= TextRoom(maxWidth, measure))
      && (r == [] || (|text| - |r|) % 2 == 0)
      && TooWideCandidates(text, |r|, TextRoom(maxWidth, measure), measure)
  {
    ShortenFrom(text, text, maxWidth, TextRoom(maxWidth, measure), measure);
  }

  /** As written, a short text that fits is still cut: with a width of 5 per
      code unit and `maxWidth` 100, "Hi" (width 10, room 75) keeps nothing,
      so only the ellipsis is drawn. */
  lemma ShortTextStillCut()
    ensures Truncated([0x48, 0x69], 100, s => 5 * |s|) == []
  {
    var measure: Utf16 -> nat := s => 5 * |s|;
    assert TextRoom(100, measure) == 75;
    assert Cut([0x48, 0x69]) == [];
  }

  /** The evidently intended truncation: the loop starts from the measured
      width of the text, so a text that fits is kept whole, and the text
      kept is otherwise cut until it is empty or fits. */
  function Fitted(text: Utf16, maxWidth: int, measure: Utf16 -> nat): (r: Utf16)
    ensures r <= text
    ensures measure(text) <= TextRoom(maxWidth, measure) ==> r == text
    ensures r == [] || measure(r) <= TextRoom(maxWidth, measure)
  {
    Shorten(text, measure(text), TextRoom(maxWidth, measure), measure)
  }

  /** The string `render` draws: the text itself without `maxWidth`, the
      truncated text followed by the ellipsis with it. */
  function DrawnText(attrs: TextAttrs, measure: Utf16 -> nat): (drawn: Utf16)
    ensures !Given(attrs.maxWidth) ==> drawn == attrs.text
    ensures Given(attrs.maxWidth) ==>
      && |drawn| >= |Ellipsis| && drawn[|drawn| - |Ellipsis|..] == Ellipsis
      && drawn[..|drawn| - |Ellipsis|] <= attrs.text
      && (attrs.text != [] ==> |drawn| - |Ellipsis| < |attrs.text|)
  {
    if !Given(attrs.maxWidth) then attrs.text
    else
      var kept := Truncated(attrs.text, attrs.maxWidth.value, measure);
      TruncatedFits(attrs.text, attrs.maxWidth.value, measure);
      assert (kept + Ellipsis)[..|kept|] == kept;
      kept + Ellipsis
  }

  /** The context fields after `if (font) ctx.font = font`. */
  function WithFont(fields: map<string, Value>, font: Option<string>): (r: map<string, Value>)
    ensures font.Some? && font.value != "" ==> "font" in r && r["font"] == Str(font.value)
    ensures forall k :: k != "font" ==> (k in r <==> k in fields) && (k in r ==> r[k] == fields[k])
    ensures !(font.Some? && font.value != "") ==> r == fields
  {
    if font.Some? && font.value != "" then fields["font" := Str(font.value)] else fields
  }

  /** `render`: set the font, then draw the text in one `fillText` call,
      truncated with an ellipsis when `maxWidth` is given. */
  method Render(ctx: Context<Shape>, attrs: TextAttrs, measure: Utf16 -> nat)
    modifies ctx
    ensures ctx.fields == WithFont(old(ctx.fields), attrs.font)
    ensures ctx.trace == old(ctx.trace) + [FillText(DrawnText(attrs, measure), attrs.x, attrs.y)]
  {
    if attrs.font.Some? && attrs.font.value != "" {
      ctx.SetField("font", Str(attrs.font.value));
    }
    if !Given(attrs.maxWidth) {
      ctx.Call(FillText(attrs.text, attrs.x, attrs.y));
      return;
    }
    var maxWidth := attrs.maxWidth.value;
    var room := maxWidth - (measure(Ellipsis) + 10);
    var currentWidth := maxWidth;
    var currentText := attrs.text;
    while currentText != [] && currentWidth > room
      invariant Shorten(currentText, currentWidth, room, measure) == Truncated(attrs.text, maxWidth, measure)
      decreases |currentText|
    {
      currentText := Cut(currentText);
      currentWidth := measure(currentText);
    }
    ctx.Call(FillText(currentText + Ellipsis, attrs.x, attrs.y));
  }

  /** The calls `fillOrStrokeText` makes: fill when `fillStyle` is truthy,
      stroke when `strokeStyle` is truthy, fill first. */
  function FillOrStrokeTextCalls(attrs: TextAttrs, actualText: Utf16): (calls: seq<CtxCall<Shape>>)
    ensures FillText(actualText, attrs.x, attrs.y) in calls <==> Truthy(attrs.fillStyle)
    ensures StrokeText(actualText, attrs.x, attrs.y) in calls <==> Truthy(attrs.strokeStyle)
    ensures forall c :: c in calls ==>
      c == FillText(actualText, attrs.x, attrs.y) || c == StrokeText(actualText, attrs.x, attrs.y)
    ensures |calls| <= 2
    ensures |calls| == 2 ==>
      calls == [FillText(actualText, attrs.x, attrs.y), StrokeText(actualText, attrs.x, attrs.y)]
  {
    (if Truthy(attrs.fillStyle) then [FillText(actualText, attrs.x, attrs.y)] else [])
    + (if Truthy(attrs.strokeStyle) then [StrokeText(actualText, attrs.x, attrs.y)] else [])
  }

  method FillOrStrokeText(ctx: Context<Shape>, attrs: TextAttrs, actualText: Utf16)
    modifies ctx
    ensures ctx.trace == old(ctx.trace) + FillOrStrokeTextCalls(attrs, actualText)
    ensures ctx.fields == old(ctx.fields)
  {
    if Truthy(attrs.fillStyle) {
      ctx.Call(FillText(actualText, attrs.x, attrs.y));
    }
    if Truthy(attrs.strokeStyle) {
      ctx.Call(StrokeText(actualText, attrs.x, attrs.y));
    }
  }
}
