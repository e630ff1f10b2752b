/** The colour palette that maps an escape-iteration count to a pixel colour.
    Its length fixes the iteration cap of the escape loop: the last entry is
    reserved for points that never escape. */
module Palette {

  newtype byte = x: int | 0 <= x < 256

  /** A colour as its four byte channels: alpha, red, green, blue. */
  datatype Color = Color(a: byte, r: byte, g: byte, b: byte)

  /** Opaque black, the colour of points inside the Mandelbrot set. */
  const Black: Color := Color(255, 0, 0, 0)

  /** The gradient loop runs i = 0, 5, ..., 255: 52 passes of three colours each. */
  const GradientStep: int := 5
  const GradientPasses: int := 52
  const PaletteSize: int := 3 * GradientPasses + 1

  /** Entry k of the palette in closed form: entries 3j, 3j+1, 3j+2 carry the
      intensity 5j on a red-to-yellow, green-to-cyan and blue-to-magenta
      gradient respectively; the last entry is black. */
  function PaletteColor(k: int): (color: Color)
    requires 0 <= k < PaletteSize
  {
    if k == PaletteSize - 1 then Black
    else
      var b := (GradientStep * (k / 3)) as byte;
      if k % 3 == 0 then Color(255, 255, b, 0)
      else if k % 3 == 1 then Color(255, 0, 255, b)
      else Color(255, b, 0, 255)
  }

  /** The palette the engine builds in its constructor. */
  ghost predicate IsEnginePalette(p: seq<Color>)
  {
    |p| == PaletteSize && forall k :: 0 <= k < |p| ==> p[k] == PaletteColor(k)
  }

  /** The constructor's palette loop: three gradient colours per pass, then black. */
  method BuildPalette() returns (palette: seq<Color>)
    ensures |palette| == 157
    ensures forall k :: 0 <= k < |palette| ==> palette[k] == PaletteColor(k)
    ensures palette[156] == Black
  {
    palette := [];
    var i := 0;
    while i <= 255
      invariant 0 <= i <= 260 && i % GradientStep == 0
      invariant |palette| == 3 * (i / GradientStep)
      invariant forall k :: 0 <= k < |palette| ==> palette[k] == PaletteColor(k)
    {
      var b := i as byte;
      palette := palette + [Color(255, 255, b, 0)];
      palette := palette + [Color(255, 0, 255, b)];
      palette := palette + [Color(255, b, 0, 255)];
      i := i + GradientStep;
    }
    palette := palette + [Black];
  }

  /** No two palette entries coincide, so the colour of a pixel determines
      the iteration count it was drawn for; in particular black is used for
      the iteration cap and for nothing else. */
  lemma PaletteColorsDistinct(j: int, k: int)
    requires 0 <= j < PaletteSize && 0 <= k < PaletteSize
    ensures PaletteColor(j) == PaletteColor(k) <==> j == k
    ensures PaletteColor(k) == Black <==> k == PaletteSize - 1
  {
    if j != k && j < PaletteSize - 1 && k < PaletteSize - 1 && j % 3 == k % 3 {
      assert j / 3 != k / 3;
      assert GradientStep * (j / 3) != GradientStep * (k / 3);
    }
  }
}
