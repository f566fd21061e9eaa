// The colour table built at the start of each render pass, and the colour a
// pixel gets from its iteration count.
module Palette {
  import opened Escape

  /** The hue, saturation and brightness arguments handed to the colour
    * conversion for one palette entry. */
  datatype Hsb = Hsb(hue: real, saturation: real, brightness: real)

  /** The arguments for entry i: hue i/256 (a full turn of the colour wheel
    * every 256 entries), full saturation, brightness i/(i+8). */
  function PaletteHsb(i: nat): (c: Hsb)
    ensures c.saturation == 1.0
    ensures 0.0 <= c.brightness < 1.0
    ensures c.hue * 256.0 == i as real
  {
    Hsb(i as real / 256.0, 1.0, i as real / (i as real + 8.0))
  }

  /** Brightness rises strictly with the entry index, so entries for slowly
    * escaping points are brighter. */
  lemma BrightnessIncreasing(i: nat, j: nat)
    ensures i < j <==> PaletteHsb(i).brightness < PaletteHsb(j).brightness
  {
    var a, b := i as real, j as real;
    var d := (a + 8.0) * (b + 8.0);
    assert d > 0.0;
    var q := 8.0 * (b - a) / d;
    assert PaletteHsb(j).brightness - PaletteHsb(i).brightness == q;
    assert q * d == 8.0 * (b - a);
    if i < j {
      assert q > 0.0;
    } else {
      assert q <= 0.0;
    }
  }

  /** The hue advances by exactly one full turn every 256 entries. */
  lemma HueWrapsEvery256(i: nat)
    ensures PaletteHsb(i + 256).hue == PaletteHsb(i).hue + 1.0
  {
  }

  /** The first n palette entries, entry i being the conversion of PaletteHsb(i). */
  function PaletteUpTo(toRgb: Hsb -> int, n: nat): (p: seq<int>)
    ensures |p| == n
  {
    if n == 0 then [] else PaletteUpTo(toRgb, n - 1) + [toRgb(PaletteHsb(n - 1))]
  }

  /** The whole palette as a value: one entry per possible iteration count. */
  function PaletteColors(toRgb: Hsb -> int): (p: seq<int>)
    ensures |p| == MAX_ITERATION
  {
    PaletteUpTo(toRgb, MAX_ITERATION)
  }

  lemma {:induction false} PaletteUpToEntry(toRgb: Hsb -> int, n: nat, i: int)
    requires 0 <= i < n
    ensures PaletteUpTo(toRgb, n)[i] == toRgb(PaletteHsb(i))
  {
    if i < n - 1 {
      PaletteUpToEntry(toRgb, n - 1, i);
    }
  }

  /** Palette entry i is the colour converted from the arguments of entry i. */
  lemma PaletteEntry(toRgb: Hsb -> int, i: int)
    requires 0 <= i < MAX_ITERATION
    ensures PaletteColors(toRgb)[i] == toRgb(PaletteHsb(i))
  {
    PaletteUpToEntry(toRgb, MAX_ITERATION, i);
  }

  /** The `for` loop that fills the colour array of length MAX_ITERATION.
    * The conversion from HSB to packed RGB is the parameter toRgb. */
  method BuildPalette(toRgb: Hsb -> int) returns (colors: array<int>)
    ensures fresh(colors)
    ensures colors.Length == MAX_ITERATION
    ensures colors[..] == PaletteColors(toRgb)
  {
    colors := new int[MAX_ITERATION];
    for i := 0 to MAX_ITERATION
      invariant colors[..i] == PaletteUpTo(toRgb, i)
    {
      colors[i] := toRgb(PaletteHsb(i));
      assert colors[..i + 1] == colors[..i] + [colors[i]];
    }
    assert colors[..] == colors[..MAX_ITERATION];
  }

  /** The colour of a pixel whose escape loop ended at `iteration`: black (0)
    * for points that reached the cap, else the palette entry iteration-1.
    * An escaping count is below the cap, so the last entry is never drawn. */
  function PixelColor(colors: seq<int>, iteration: int): (r: int)
    requires |colors| == MAX_ITERATION
    requires 1 <= iteration <= MAX_ITERATION
    ensures iteration == MAX_ITERATION ==> r == 0
    ensures iteration < MAX_ITERATION ==> r in colors[..MAX_ITERATION - 1]
  {
    if iteration < MAX_ITERATION then colors[iteration - 1] else 0
  }

  /** The pixel of the origin is black. */
  lemma OriginPixelIsBlack(colors: seq<int>)
    requires |colors| == MAX_ITERATION
    ensures PixelColor(colors, EscapeTime(0.0, 0.0)) == 0
  {
    OriginNeverEscapes();
  }

  /** The pixel of (2, 0) takes the first palette entry. */
  lemma PointTwoPixelIsFirstEntry(colors: seq<int>)
    requires |colors| == MAX_ITERATION
    ensures PixelColor(colors, EscapeTime(2.0, 0.0)) == colors[0]
  {
    PointTwoEscapesAfterOneStep();
  }
}
