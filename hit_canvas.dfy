/** The colour registry of `HitCanvas` (src/HitCanvas.ts): each shape drawn
    for hit-testing gets a unique `rgb(r,g,b)` key, and `colorHash` maps the
    key back to the shape. Colours are drawn from a random source, given here
    as the sequence of triples it produces. */
module HitTesting {
  import opened Scene

  /** One colour component: `Math.round(random(0, 255))`. */
  type Channel = x: int | 0 <= x <= 255

  datatype Rgb = Rgb(r: Channel, g: Channel, b: Channel)

  function DigitChar(d: int): (c: char)
    requires 0 <= d < 10
    ensures '0' <= c <= '9'
    ensures c as int - '0' as int == d
  {
    ('0' as int + d) as char
  }

  /** A number as a template literal prints it: decimal, no leading zero. */
  function Decimal(n: nat): (s: string)
    ensures 0 < |s| && (n < 10 <==> |s| == 1)
    ensures forall i :: 0 <= i < |s| ==> '0' <= s[i] <= '9'
    ensures n >= 10 ==> s[0] != '0'
    ensures n < 100 ==> |s| <= 2
    ensures n < 1000 ==> |s| <= 3
  {
    if n < 10 then [DigitChar(n)] else Decimal(n / 10) + [DigitChar(n % 10)]
  }

  /** The registry key of a colour: `rgb(${r},${g},${b})`. */
  function ColorKey(c: Rgb): (key: string)
    ensures 10 <= |key| <= 16
    ensures key[..4] == "rgb(" && key[|key| - 1] == ')'
  {
    "rgb(" + Decimal(c.r) + "," + Decimal(c.g) + "," + Decimal(c.b) + ")"
  }

  ghost predicate IsColorKey(key: string)
  {
    exists c :: key == ColorKey(c)
  }

  /** Distinct numbers print differently. */
  lemma {:induction false} DecimalInjective(m: nat, n: nat)
    requires Decimal(m) == Decimal(n)
    ensures m == n
  {
    if m >= 10 && n >= 10 {
      var s := Decimal(m);
      assert s[..|s| - 1] == Decimal(m / 10) && s[..|s| - 1] == Decimal(n / 10);
      DecimalInjective(m / 10, n / 10);
      assert s[|s| - 1] == DigitChar(m % 10) == DigitChar(n % 10);
    }
  }

  /** A comma that neither left part contains splits two strings the same way. */
  lemma SplitAtComma(u1: string, v1: string, u2: string, v2: string)
    requires ',' !in u1 && ',' !in u2
    requires u1 + [','] + v1 == u2 + [','] + v2
    ensures u1 == u2 && v1 == v2
  {
    var s := u1 + [','] + v1;
    assert forall i :: 0 <= i < |u1| ==> s[i] == u1[i] != ',';
    assert forall i :: 0 <= i < |u2| ==> s[i] == u2[i] != ',';
    assert s[|u1|] == ',' && s[|u2|] == ',';
    assert u1 == s[..|u1|] == u2;
    assert v1 == s[|u1| + 1..] == v2;
  }

  lemma NoCommaInDecimal(n: nat)
    ensures ',' !in Decimal(n)
  {
    var s := Decimal(n);
    assert forall i :: 0 <= i < |s| ==> s[i] != ',';
  }

  /** What follows `rgb(` in a key. */
  function KeyBody(c: Rgb): string
  {
    Decimal(c.r) + [','] + (Decimal(c.g) + [','] + (Decimal(c.b) + [')']))
  }

  lemma KeyHasBody(c: Rgb)
    ensures ColorKey(c) == "rgb(" + KeyBody(c)
  {
  }

  /** A number followed by `)` determines the number. */
  lemma ClosedDecimalInjective(m: nat, n: nat)
    requires Decimal(m) + [')'] == Decimal(n) + [')']
    ensures m == n
  {
    var s := Decimal(m) + [')'];
    assert Decimal(m) == s[..|s| - 1] == Decimal(n);
    DecimalInjective(m, n);
  }

  /** Different colours get different keys, so a key names one colour. */
  lemma ColorKeyInjective(a: Rgb, b: Rgb)
    requires ColorKey(a) == ColorKey(b)
    ensures a == b
  {
    KeyHasBody(a);
    KeyHasBody(b);
    assert KeyBody(a) == ColorKey(a)[4..] == ColorKey(b)[4..] == KeyBody(b);
    NoCommaInDecimal(a.r); NoCommaInDecimal(b.r);
    NoCommaInDecimal(a.g); NoCommaInDecimal(b.g);
    SplitAtComma(Decimal(a.r), Decimal(a.g) + [','] + (Decimal(a.b) + [')']),
                 Decimal(b.r), Decimal(b.g) + [','] + (Decimal(b.b) + [')']));
    SplitAtComma(Decimal(a.g), Decimal(a.b) + [')'], Decimal(b.g), Decimal(b.b) + [')']);
    DecimalInjective(a.r, b.r);
    DecimalInjective(a.g, b.g);
    ClosedDecimalInjective(a.b, b.b);
  }

  /** No colour key is the empty "unassigned" colour. */
  lemma ColorKeyNotEmpty(c: Rgb)
    ensures ColorKey(c) != "" && ColorKey(c)[..4] == "rgb("
  {
  }

  /** Some draw from the random source names a colour not yet in use: the
      condition under which `randomColor`'s retrying stops. */
  ghost predicate HasFreeDraw(colorHash: map<string, Shape>, draws: seq<Rgb>)
  {
    exists i :: 0 <= i < |draws| && ColorKey(draws[i]) !in colorHash
  }

  lemma FreeDrawInTail(colorHash: map<string, Shape>, draws: seq<Rgb>)
    requires HasFreeDraw(colorHash, draws)
    requires ColorKey(draws[0]) in colorHash
    ensures HasFreeDraw(colorHash, draws[1..])
  {
    var i :| 0 <= i < |draws| && ColorKey(draws[i]) !in colorHash;
    assert draws[1..][i - 1] == draws[i];
  }

  /** `randomColor()`: draw a colour and retry while its key is taken. */
  function RandomColor(colorHash: map<string, Shape>, draws: seq<Rgb>): (key: string)
    requires HasFreeDraw(colorHash, draws)
    ensures key !in colorHash
    ensures IsColorKey(key)
    decreases |draws|
  {
    var color := ColorKey(draws[0]);
    if color in colorHash then
      FreeDrawInTail(colorHash, draws);
      RandomColor(colorHash, draws[1..])
    else
      color
  }

  /** The key chosen is the first draw whose key is free: every earlier draw
      collided and was retried. */
  lemma {:induction false} RandomColorIsFirstFree(colorHash: map<string, Shape>, draws: seq<Rgb>, i: nat)
    requires i < |draws| && ColorKey(draws[i]) !in colorHash
    requires forall j :: 0 <= j < i ==> ColorKey(draws[j]) in colorHash
    ensures RandomColor(colorHash, draws) == ColorKey(draws[i])
  {
    if i > 0 {
      assert draws[1..][i - 1] == draws[i];
      RandomColorIsFirstFree(colorHash, draws[1..], i - 1);
    }
  }

  /** `new HitCanvas({ width, height })`, as far as the registry goes. */
  datatype Options = Options(width: int, height: int)

  class HitCanvas {
    const width: int
    const height: int
    var colorHash: map<string, Shape>

    constructor (options: Options)
      ensures width == options.width && height == options.height && colorHash == map[]
    {
      width := options.width;
      height := options.height;
      colorHash := map[];
    }

    /** The registry describes the shapes' colours: no entry for the empty
        colour, and every entry's shape holds that entry's key. */
    ghost predicate Consistent()
      reads this, colorHash.Values
    {
      && "" !in colorHash
      && forall k :: k in colorHash ==> colorHash[k].color == k
    }

    /** `add(shape)`: a shape that already has a colour is left alone;
        otherwise it gets a fresh key, registered to it. */
    method Add(shape: Shape, draws: seq<Rgb>)
      requires shape.color == "" ==> HasFreeDraw(colorHash, draws)
      modifies this, shape`color
      ensures old(shape.color) != "" ==> shape.color == old(shape.color) && colorHash == old(colorHash)
      ensures old(shape.color) == "" ==>
        && shape.color == RandomColor(old(colorHash), draws)
        && shape.color != "" && shape.color !in old(colorHash)
        && colorHash == old(colorHash)[shape.color := shape]
      ensures old(Consistent()) ==> Consistent()
    {
      if shape.color != "" {
        return;
      }
      var color := RandomColor(colorHash, draws);
      ghost var c :| color == ColorKey(c);
      ColorKeyNotEmpty(c);
      shape.color := color;
      colorHash := colorHash[color := shape];
    }

    /** `remove(shape)` as written: the colour is cleared first, so the entry
        deleted is the one for `""`, and the shape's old key stays registered
        to it. */
    method Remove(shape: Shape)
      modifies this, shape`color
      ensures shape.color == ""
      ensures colorHash == old(colorHash) - {""}
      ensures old(shape.color) != "" && old(shape.color) in old(colorHash) ==>
        old(shape.color) in colorHash && colorHash[old(shape.color)] == old(colorHash)[old(shape.color)]
      ensures old(Consistent()) && old(shape.color) in old(colorHash) && old(colorHash)[old(shape.color)] == shape ==>
        !Consistent()
    {
      ghost var key := shape.color;
      shape.color := "";
      colorHash := colorHash - {shape.color};
      if key in old(colorHash) && old(colorHash)[key] == shape && "" !in old(colorHash) {
        assert key in colorHash && colorHash[key].color != key;
      }
    }

    /** What `remove` is meant to do: delete the shape's own entry, then clear
        its colour. This keeps the registry consistent. */
    method Release(shape: Shape)
      modifies this, shape`color
      ensures shape.color == ""
      ensures colorHash == old(colorHash) - {old(shape.color)}
      ensures old(Consistent()) ==> Consistent()
    {
      colorHash := colorHash - {shape.color};
      shape.color := "";
    }
  }

  /** Removing a coloured shape and adding it again gives it a new colour:
      its stale key is still taken. */
  method RemoveThenAdd(hc: HitCanvas, shape: Shape, draws: seq<Rgb>)
    requires shape.color != "" && shape.color in hc.colorHash
    requires HasFreeDraw(hc.colorHash - {""}, draws)
    modifies hc, shape`color
    ensures shape.color != "" && shape.color != old(shape.color)
    ensures old(shape.color) in hc.colorHash
  {
    hc.Remove(shape);
    hc.Add(shape, draws);
  }
}
