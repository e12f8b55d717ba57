/**
 * The local region analyser (analyzeLocalLighting): average colour, lightness,
 * saturation, hue and a sharpness estimate of a square RGBA patch around the
 * placement point, turned into the one-sentence lighting hint of the prompt.
 */
module Lighting {
  import opened JsMath
  import JsFormat
  import Positioning
  import ImageGeometry

  /** One channel value of an RGBA pixel buffer (a clamped 8-bit array). */
  type Byte = x: int | 0 <= x < 256

  /** A patch buffer as getImageData returns it: patch x patch pixels, four bytes each, row-major. */
  predicate WellSized(data: seq<Byte>, patch: nat)
  {
    |data| == patch * patch * 4
  }

  lemma PixelIndexInRange(patch: nat, py: nat, px: nat)
    requires py < patch && px < patch
    ensures 0 <= py * patch + px < patch * patch
    ensures (py * patch + px) * 4 + 4 <= patch * patch * 4
  {
    assert py * patch <= (patch - 1) * patch by {
      assert (patch - 1) * patch - py * patch == (patch - 1 - py) * patch;
    }
  }

  /** The luma weights the analyser uses. */
  function Luma(r: real, g: real, b: real): real
  {
    0.2126 * r + 0.7152 * g + 0.0722 * b
  }

  datatype Colour = Colour(r: real, g: real, b: real)

  /** The red, green and blue values of the pixel at row-major position `k` of the buffer. */
  function ColourAt(data: seq<Byte>, k: nat): Colour
    requires k * 4 + 4 <= |data|
  {
    Colour(data[k * 4] as real, data[k * 4 + 1] as real, data[k * 4 + 2] as real)
  }

  function LumaAt(data: seq<Byte>, k: nat): real
    requires k * 4 + 4 <= |data|
  {
    var c := ColourAt(data, k);
    Luma(c.r, c.g, c.b)
  }

  /** The sum of channel `c` (0 red, 1 green, 2 blue) over the first `n` pixels of the buffer. */
  function ChannelSum(data: seq<Byte>, c: nat, n: nat): int
    requires c < 4 && n * 4 <= |data|
  {
    if n == 0 then 0 else ChannelSum(data, c, n - 1) + data[(n - 1) * 4 + c]
  }

  /**
   * Luma differences between horizontal neighbours in the row that starts at
   * pixel `start`: the pairs (px - 1, px) for 1 <= px < n.
   */
  function RowHorizontal(data: seq<Byte>, start: nat, n: nat): real
    requires (start + n) * 4 <= |data|
  {
    if n <= 1 then 0.0
    else RowHorizontal(data, start, n - 1) + Abs(LumaAt(data, start + n - 1) - LumaAt(data, start + n - 2))
  }

  /**
   * Luma differences between the row that starts at pixel `start` and the row
   * `patch` pixels above it, for columns px < n.
   */
  function RowVertical(data: seq<Byte>, start: nat, patch: nat, n: nat): real
    requires patch <= start && n <= patch && (start + n) * 4 <= |data|
  {
    if n == 0 then 0.0
    else RowVertical(data, start, patch, n - 1) + Abs(LumaAt(data, start + n - 1) - LumaAt(data, start - patch + n - 1))
  }

  /** The pixel index at which row `rows` of a patch x patch buffer starts, counted row by row. */
  function RowOffset(patch: nat, rows: nat): nat
  {
    if rows == 0 then 0 else RowOffset(patch, rows - 1) + patch
  }

  lemma {:induction false} RowOffsetIsProduct(patch: nat, rows: nat)
    ensures RowOffset(patch, rows) == rows * patch
  {
    if rows > 0 {
      RowOffsetIsProduct(patch, rows - 1);
      assert rows * patch == (rows - 1) * patch + patch;
    }
  }

  /** The first `rows` rows lie inside the buffer. */
  lemma RowOffsetInBuffer(patch: nat, rows: nat)
    requires rows <= patch
    ensures RowOffset(patch, rows) <= patch * patch
  {
    RowOffsetIsProduct(patch, rows);
    RowOffsetIsProduct(patch, patch);
    RowOffsetMonotonic(patch, rows, patch);
  }

  lemma {:induction false} RowOffsetMonotonic(patch: nat, rows: nat, rows': nat)
    requires rows <= rows'
    ensures RowOffset(patch, rows) <= RowOffset(patch, rows')
    decreases rows'
  {
    if rows < rows' {
      RowOffsetMonotonic(patch, rows, rows' - 1);
    }
  }

  /** All horizontal neighbour differences in the first `rows` rows of a patch x patch buffer. */
  function HorizontalGradients(data: seq<Byte>, patch: nat, rows: nat): real
    requires WellSized(data, patch) && rows <= patch
  {
    RowOffsetInBuffer(patch, rows);
    if rows == 0 then 0.0
    else HorizontalGradients(data, patch, rows - 1) + RowHorizontal(data, RowOffset(patch, rows - 1), patch)
  }

  /** All vertical neighbour differences in the first `rows` rows of a patch x patch buffer. */
  function VerticalGradients(data: seq<Byte>, patch: nat, rows: nat): real
    requires WellSized(data, patch) && rows <= patch
  {
    RowOffsetInBuffer(patch, rows);
    if rows <= 1 then 0.0
    else VerticalGradients(data, patch, rows - 1) + RowVertical(data, RowOffset(patch, rows - 1), patch, patch)
  }

  /** Adding pixel `px` of a row extends the horizontal sum by its difference to the left neighbour, if any. */
  lemma HorizontalStep(data: seq<Byte>, start: nat, px: nat, prevLuma: real, l: real)
    requires (start + px + 1) * 4 <= |data|
    requires px > 0 ==> prevLuma == LumaAt(data, start + px - 1)
    requires l == LumaAt(data, start + px)
    ensures RowHorizontal(data, start, px + 1) == RowHorizontal(data, start, px) + (if px > 0 then Abs(l - prevLuma) else 0.0)
  {
  }

  /** Adding pixel `px` of a row extends the vertical sum by its difference to the pixel above. */
  lemma VerticalStep(data: seq<Byte>, start: nat, patch: nat, px: nat, above: real, l: real)
    requires patch <= start && px < patch && (start + px + 1) * 4 <= |data|
    requires above == LumaAt(data, start - patch + px)
    requires l == LumaAt(data, start + px)
    ensures RowVertical(data, start, patch, px + 1) == RowVertical(data, start, patch, px) + Abs(l - above)
  {
  }

  /**
   * The body of the pixel loop for pixel `k`: adds its red, green and blue
   * values to the running sums and computes its luma.
   */
  method AddPixel(data: seq<Byte>, k: nat, rSum: int, gSum: int, bSum: int) returns (rSum': int, gSum': int, bSum': int, l: real)
    requires k * 4 + 4 <= |data|
    requires rSum == ChannelSum(data, 0, k) && gSum == ChannelSum(data, 1, k) && bSum == ChannelSum(data, 2, k)
    ensures rSum' == ChannelSum(data, 0, k + 1) && gSum' == ChannelSum(data, 1, k + 1) && bSum' == ChannelSum(data, 2, k + 1)
    ensures l == LumaAt(data, k)
  {
    var idx := k * 4;
    var r: int, g: int, b: int := data[idx], data[idx + 1], data[idx + 2];
    rSum', gSum', bSum' := rSum + r, gSum + g, bSum + b;
    l := Luma(r as real, g as real, b as real);
  }

  /** The differences the pixel loop adds over the first `n` pixels of row `py`, which starts at pixel `rowStart`. */
  function RowDifferences(data: seq<Byte>, rowStart: nat, patch: nat, py: nat, n: nat): real
    requires n <= patch && (rowStart + n) * 4 <= |data| && (py > 0 ==> patch <= rowStart)
  {
    RowHorizontal(data, rowStart, n) + (if py > 0 then RowVertical(data, rowStart, patch, n) else 0.0)
  }

  /** How many differences the pixel loop adds over the first `n` pixels of row `py`. */
  function RowTerms(py: nat, n: nat): int
  {
    (if n > 0 then n - 1 else 0) + (if py > 0 then n else 0)
  }

  /** Pixel `px` of row `py` extends the row's differences by its left and upper ones, where they exist. */
  lemma RowStep(data: seq<Byte>, rowStart: nat, patch: nat, py: nat, px: nat, prevLuma: real, above: real, l: real)
    requires px < patch && (rowStart + px + 1) * 4 <= |data| && (py > 0 ==> patch <= rowStart)
    requires px > 0 ==> prevLuma == LumaAt(data, rowStart + px - 1)
    requires py > 0 ==> above == LumaAt(data, rowStart - patch + px)
    requires l == LumaAt(data, rowStart + px)
    ensures RowDifferences(data, rowStart, patch, py, px + 1)
            == RowDifferences(data, rowStart, patch, py, px) + (if px > 0 then Abs(l - prevLuma) else 0.0)
               + (if py > 0 then Abs(l - above) else 0.0)
  {
    HorizontalStep(data, rowStart, px, prevLuma, l);
    if py > 0 {
      VerticalStep(data, rowStart, patch, px, above, l);
    }
  }

  /**
   * The difference terms the pixel loop adds for the pixel with luma `l` at
   * column `px` of row `py`: one to the left neighbour and one to the pixel
   * above, each only where that neighbour exists. `terms` counts them.
   */
  method AddDifferences(px: nat, py: nat, l: real, prevLuma: real, above: real, sharpnessAccum: real, ghost terms: int)
    returns (sharpnessAccum': real, ghost terms': int)
    ensures sharpnessAccum' == sharpnessAccum + (if px > 0 then Abs(l - prevLuma) else 0.0)
                               + (if py > 0 then Abs(l - above) else 0.0)
    ensures terms' == terms + (if px > 0 then 1 else 0) + (if py > 0 then 1 else 0)
  {
    sharpnessAccum', terms' := sharpnessAccum, terms;
    if px > 0 {
      sharpnessAccum' := sharpnessAccum' + Abs(l - prevLuma);
      terms' := terms' + 1;
    }
    if py > 0 {
      sharpnessAccum' := sharpnessAccum' + Abs(l - above);
      terms' := terms' + 1;
    }
  }

  /** What the pixel loop accumulates. */
  datatype PatchStats = PatchStats(rSum: int, gSum: int, bSum: int, count: nat, sharpnessAccum: real)

  /** The pixel loop's running totals are those of the first `stats.count` pixels. */
  predicate Accounts(data: seq<Byte>, stats: PatchStats)
    requires stats.count * 4 <= |data|
  {
    && stats.rSum == ChannelSum(data, 0, stats.count)
    && stats.gSum == ChannelSum(data, 1, stats.count)
    && stats.bSum == ChannelSum(data, 2, stats.count)
  }

  /**
   * The pixel loop of analyzeLocalLighting: visits every pixel once, sums the
   * three colour channels, and adds the absolute luma difference to the left
   * and to the upper neighbour, keeping the previous row's luma in a buffer.
   * `terms` counts the differences added, which is the divisor `comparisons`.
   */
  method SamplePatch(data: seq<Byte>, patch: nat) returns (stats: PatchStats, ghost terms: int)
    requires WellSized(data, patch)
    ensures stats.count == patch * patch
    ensures stats.rSum == ChannelSum(data, 0, patch * patch)
    ensures stats.gSum == ChannelSum(data, 1, patch * patch)
    ensures stats.bSum == ChannelSum(data, 2, patch * patch)
    ensures stats.sharpnessAccum == HorizontalGradients(data, patch, patch) + VerticalGradients(data, patch, patch)
    ensures terms == Comparisons(patch)
  {
    var lumaPrevRow := new real[patch](_ => 0.0);
    stats := PatchStats(0, 0, 0, 0, 0.0);
    terms := 0;
    var py := 0;
    while py < patch
      invariant 0 <= py <= patch
      invariant stats.count == RowOffset(patch, py) && stats.count <= patch * patch
      invariant Accounts(data, stats)
      invariant stats.sharpnessAccum == HorizontalGradients(data, patch, py) + VerticalGradients(data, patch, py)
      invariant terms == GradientTerms(patch, py)
      invariant py > 0 ==> forall j :: 0 <= j < patch ==> lumaPrevRow[j] == LumaAt(data, stats.count - patch + j)
    {
      RowOffsetInBuffer(patch, py + 1);
      stats, terms := SampleRow(data, patch, py, stats.count, lumaPrevRow, stats, terms);
      py := py + 1;
    }
    RowOffsetIsProduct(patch, patch);
    if patch > 0 {
      GradientTermsTotal(patch, patch);
    }
  }

  /**
   * One pass of the outer loop: the pixels of row `py`, which starts at pixel
   * `rowStart` (that is, `py * patch`), left to right. On return the buffer
   * holds this row's luma values.
   */
  method SampleRow(data: seq<Byte>, patch: nat, py: nat, rowStart: nat, lumaPrevRow: array<real>, before: PatchStats,
                   ghost termsBefore: int)
    returns (after: PatchStats, ghost terms: int)
    requires py < patch
    requires lumaPrevRow.Length == patch && (rowStart + patch) * 4 <= |data|
    requires before.count == rowStart && (py > 0 ==> patch <= rowStart)
    requires Accounts(data, before)
    requires py > 0 ==> forall j :: 0 <= j < patch ==> lumaPrevRow[j] == LumaAt(data, rowStart - patch + j)
    modifies lumaPrevRow
    ensures after.count == rowStart + patch
    ensures Accounts(data, after)
    ensures after.sharpnessAccum == before.sharpnessAccum + RowHorizontal(data, rowStart, patch)
                                    + (if py > 0 then RowVertical(data, rowStart, patch, patch) else 0.0)
    ensures forall j :: 0 <= j < patch ==> lumaPrevRow[j] == LumaAt(data, rowStart + j)
    ensures terms == termsBefore + (patch - 1) + (if py > 0 then patch else 0)
  {
    var rSum, gSum, bSum, count, sharpnessAccum := before.rSum, before.gSum, before.bSum, before.count, before.sharpnessAccum;
    terms := termsBefore;
    var prevLuma := 0.0;
    var px := 0;
    while px < patch
      invariant 0 <= px <= patch
      invariant count == rowStart + px
      invariant rSum == ChannelSum(data, 0, count)
      invariant gSum == ChannelSum(data, 1, count)
      invariant bSum == ChannelSum(data, 2, count)
      invariant sharpnessAccum == before.sharpnessAccum + RowDifferences(data, rowStart, patch, py, px)
      invariant terms == termsBefore + RowTerms(py, px)
      invariant px > 0 ==> prevLuma == LumaAt(data, count - 1)
      invariant forall j :: 0 <= j < px ==> lumaPrevRow[j] == LumaAt(data, rowStart + j)
      invariant py > 0 ==> forall j :: px <= j < patch ==> lumaPrevRow[j] == LumaAt(data, rowStart - patch + j)
    {
      var l;
      rSum, gSum, bSum, l := AddPixel(data, count, rSum, gSum, bSum);
      count := count + 1;
      var above := lumaPrevRow[px];
      RowStep(data, rowStart, patch, py, px, prevLuma, above, l);
      sharpnessAccum, terms := AddDifferences(px, py, l, prevLuma, above, sharpnessAccum, terms);
      prevLuma := l;
      lumaPrevRow[px] := l;
      px := px + 1;
    }
    after := PatchStats(rSum, gSum, bSum, count, sharpnessAccum);
  }

  // ----- Bounds of the accumulated quantities -----

  lemma {:induction false} ChannelSumBounds(data: seq<Byte>, c: nat, n: nat)
    requires c < 4 && n * 4 <= |data|
    ensures 0 <= ChannelSum(data, c, n) <= 255 * n
  {
    if n > 0 {
      ChannelSumBounds(data, c, n - 1);
    }
  }

  /** The luma weights add up to one, so a pixel's luma lies in [0, 255]. */
  lemma LumaBounds(data: seq<Byte>, k: nat)
    requires k * 4 + 4 <= |data|
    ensures 0.0 <= LumaAt(data, k) <= 255.0
  {
  }

  lemma DifferenceBound(a: real, b: real)
    requires 0.0 <= a <= 255.0 && 0.0 <= b <= 255.0
    ensures 0.0 <= Abs(a - b) <= 255.0
  {
  }

  lemma {:induction false} RowHorizontalBounds(data: seq<Byte>, start: nat, n: nat)
    requires 0 < n && (start + n) * 4 <= |data|
    ensures 0.0 <= RowHorizontal(data, start, n) <= 255.0 * (n - 1) as real
  {
    if n > 1 {
      RowHorizontalBounds(data, start, n - 1);
      LumaBounds(data, start + n - 1);
      LumaBounds(data, start + n - 2);
      DifferenceBound(LumaAt(data, start + n - 1), LumaAt(data, start + n - 2));
    }
  }

  lemma {:induction false} RowVerticalBounds(data: seq<Byte>, start: nat, patch: nat, n: nat)
    requires patch <= start && n <= patch && (start + n) * 4 <= |data|
    ensures 0.0 <= RowVertical(data, start, patch, n) <= 255.0 * n as real
  {
    if n > 0 {
      RowVerticalBounds(data, start, patch, n - 1);
      LumaBounds(data, start + n - 1);
      LumaBounds(data, start - patch + n - 1);
      DifferenceBound(LumaAt(data, start + n - 1), LumaAt(data, start - patch + n - 1));
    }
  }

  lemma ProductStep(a: nat, b: int)
    requires a > 0
    ensures a * b == (a - 1) * b + b
  {
  }

  lemma {:induction false} HorizontalGradientsBounds(data: seq<Byte>, patch: nat, rows: nat)
    requires WellSized(data, patch) && 0 < rows <= patch
    ensures 0.0 <= HorizontalGradients(data, patch, rows) <= 255.0 * (rows * (patch - 1)) as real
  {
    RowOffsetInBuffer(patch, rows);
    RowHorizontalBounds(data, RowOffset(patch, rows - 1), patch);
    if rows > 1 {
      HorizontalGradientsBounds(data, patch, rows - 1);
      ProductStep(rows, patch - 1);
    }
  }

  lemma {:induction false} VerticalGradientsBounds(data: seq<Byte>, patch: nat, rows: nat)
    requires WellSized(data, patch) && 0 < rows <= patch
    ensures 0.0 <= VerticalGradients(data, patch, rows) <= 255.0 * ((rows - 1) * patch) as real
  {
    RowOffsetInBuffer(patch, rows);
    if rows > 1 {
      VerticalGradientsBounds(data, patch, rows - 1);
      RowVerticalBounds(data, RowOffset(patch, rows - 1), patch, patch);
      ProductStep(rows - 1, patch);
    }
  }

  // ----- From the accumulated sums to the descriptor -----

  /** `comparisons`: one horizontal and one vertical neighbour pair per pixel, minus the first column and the first row. */
  function Comparisons(patch: nat): int
  {
    patch * (patch - 1) * 2
  }

  /** The normalised sharpness estimate: the mean neighbour difference as a fraction of 255. */
  function Sharpness(sharpnessAccum: real, patch: nat): real
  {
    var comparisons := Comparisons(patch);
    if comparisons > 0 then sharpnessAccum / (comparisons * 255) as real else 0.0
  }

  /**
   * The number of gradient terms the pixel loop adds over the first `rows`
   * rows: one per pixel with a left neighbour, one per pixel with an upper one.
   */
  function GradientTerms(patch: nat, rows: nat): int
  {
    if rows == 0 then 0 else GradientTerms(patch, rows - 1) + (patch - 1) + (if rows > 1 then patch else 0)
  }

  /** Over a whole patch the loop adds exactly `comparisons` terms, the divisor of the sharpness estimate. */
  lemma {:induction false} GradientTermsTotal(patch: nat, rows: nat)
    requires 0 < rows
    ensures GradientTerms(patch, rows) == rows * (patch - 1) + (rows - 1) * patch
    ensures rows == patch ==> GradientTerms(patch, rows) == Comparisons(patch)
  {
    if rows > 1 {
      GradientTermsTotal(patch, rows - 1);
      ProductStep(rows, patch - 1);
      ProductStep(rows - 1, patch);
    }
  }

  /** Accumulated differences of at most 255 per comparison give a sharpness in [0, 1]. */
  lemma SharpnessBounds(sharpnessAccum: real, patch: nat)
    requires 0.0 <= sharpnessAccum <= 255.0 * Comparisons(patch) as real
    ensures 0.0 <= Sharpness(sharpnessAccum, patch) <= 1.0
  {
    if Comparisons(patch) > 0 {
      RatioInUnitRange(sharpnessAccum, (Comparisons(patch) * 255) as real);
    }
  }

  /** Over a whole patch, the accumulated differences are at most 255 per comparison, so sharpness lies in [0, 1]. */
  lemma SharpnessInUnitRange(data: seq<Byte>, patch: nat)
    requires WellSized(data, patch) && patch > 0
    ensures var s := Sharpness(HorizontalGradients(data, patch, patch) + VerticalGradients(data, patch, patch), patch);
            0.0 <= s <= 1.0
  {
    HorizontalGradientsBounds(data, patch, patch);
    VerticalGradientsBounds(data, patch, patch);
    GradientTermsTotal(patch, patch);
    SharpnessBounds(HorizontalGradients(data, patch, patch) + VerticalGradients(data, patch, patch), patch);
  }

  function Max3(a: real, b: real, c: real): real
  {
    Max(Max(a, b), c)
  }

  function Min3(a: real, b: real, c: real): real
  {
    Min(Min(a, b), c)
  }

  predicate InByteRange(c: Colour)
  {
    0.0 <= c.r <= 255.0 && 0.0 <= c.g <= 255.0 && 0.0 <= c.b <= 255.0
  }

  /** HSL lightness of the average colour, in [0, 1]. */
  function Lightness(c: Colour): (l: real)
    requires InByteRange(c)
    ensures 0.0 <= l <= 1.0
  {
    (Max3(c.r, c.g, c.b) + Min3(c.r, c.g, c.b)) / 510.0
  }

  /** HSL saturation of the average colour; zero exactly for a grey. */
  function Saturation(c: Colour): (s: real)
    requires InByteRange(c)
    ensures 0.0 <= s <= 1.0
    ensures s == 0.0 <==> c.r == c.g == c.b
  {
    var max, min := Max3(c.r, c.g, c.b), Min3(c.r, c.g, c.b);
    if max == min then 0.0
    else
      var denominator := 255.0 - Abs(max + min - 255.0);
      RatioInUnitRange(max - min, denominator);
      (max - min) / denominator
  }

  lemma RatioInUnitRange(a: real, d: real)
    requires d > 0.0 && -d <= a <= d
    ensures -1.0 <= a / d <= 1.0
    ensures a >= 0.0 ==> a / d >= 0.0
  {
    var q := a / d;
    assert q * d == a;
    if q > 1.0 {
      MulStrictMonotonic(1.0, q, d);
    }
    if q < -1.0 {
      MulStrictMonotonic(q, -1.0, d);
    }
  }

  /**
   * HSL hue of the average colour in degrees. The red branch uses JavaScript's
   * `%`, whose result takes the sign of the dividend, and a negative angle is
   * moved up by 360.
   */
  function Hue(c: Colour): (h: real)
    requires InByteRange(c)
    ensures 0.0 <= h < 360.0
    ensures c.r == c.g == c.b ==> h == 0.0
  {
    var max, min := Max3(c.r, c.g, c.b), Min3(c.r, c.g, c.b);
    var raw := (
      if max == min then 0.0
      else if max == c.r then
        RatioInUnitRange(c.g - c.b, max - min);
        RemainderOfSmall((c.g - c.b) / (max - min), 6.0);
        60.0 * Remainder((c.g - c.b) / (max - min), 6.0)
      else if max == c.g then
        RatioInUnitRange(c.b - c.r, max - min);
        60.0 * ((c.b - c.r) / (max - min) + 2.0)
      else
        RatioInUnitRange(c.r - c.g, max - min);
        60.0 * ((c.r - c.g) / (max - min) + 4.0));
    if raw < 0.0 then raw + 360.0 else raw
  }

  /** Warm light: a hue between red-orange and yellow with some colour in it. */
  predicate IsWarm(hue: real, saturation: real)
  {
    15.0 <= hue <= 70.0 && saturation > 0.05
  }

  const SoftLabel: string := "soft/blurred (shallow DOF)"

  function SharpLabel(sharpness: real): string
  {
    if sharpness < 0.05 then SoftLabel
    else if sharpness < 0.12 then "moderately sharp"
    else "very sharp"
  }

  function TempLabel(warm: bool): string
  {
    if warm then "warm, amber/orange-biased" else "cool/neutral"
  }

  /** The three sharpness bands split at 0.05 and 0.12, and the two temperature labels tell warm from cool. */
  lemma LabelBands(sharpness: real, warm: bool)
    ensures SharpLabel(sharpness) == SoftLabel <==> sharpness < 0.05
    ensures SharpLabel(sharpness) == "moderately sharp" <==> 0.05 <= sharpness < 0.12
    ensures SharpLabel(sharpness) == "very sharp" <==> 0.12 <= sharpness
    ensures TempLabel(warm) == "warm, amber/orange-biased" <==> warm
  {
    assert SoftLabel[0] != "moderately sharp"[0] && SoftLabel[0] != "very sharp"[0] && "moderately sharp"[0] != "very sharp"[0];
    assert "cool/neutral"[0] != "warm, amber/orange-biased"[0];
  }

  /** One channel of the hex colour: the rounded value in lower-case hexadecimal, zero-padded to two digits. */
  function ChannelHex(v: real): (s: string)
    requires 0.0 <= v <= 255.0
    ensures |s| == 2 && JsFormat.IsDigits(s, 16) && JsFormat.Parse(s, 16) == Round(v)
  {
    var n := Round(v);
    var digits := JsFormat.ToString(n, 16);
    JsFormat.ParseToString(n, 16);
    JsFormat.ParsePadStart(digits, 2, 16);
    JsFormat.PadStartShape(digits, 2, '0');
    assert |digits| <= 2 by {
      if n >= 16 {
        assert n / 16 < 16;
      }
    }
    JsFormat.PadStart(digits, 2, '0')
  }

  /** `#rrggbb` of the average colour. */
  function ColourHex(c: Colour): (s: string)
    requires InByteRange(c)
    ensures |s| == 7 && s[0] == '#'
  {
    "#" + ChannelHex(c.r) + ChannelHex(c.g) + ChannelHex(c.b)
  }

  /** The hex colour can be read back: each pair of digits is the rounded channel. */
  lemma ColourHexRoundTrip(c: Colour)
    requires InByteRange(c)
    ensures var s := ColourHex(c);
            && JsFormat.IsDigits(s[1..3], 16) && JsFormat.Parse(s[1..3], 16) == Round(c.r)
            && JsFormat.IsDigits(s[3..5], 16) && JsFormat.Parse(s[3..5], 16) == Round(c.g)
            && JsFormat.IsDigits(s[5..7], 16) && JsFormat.Parse(s[5..7], 16) == Round(c.b)
  {
    var red, green, blue := ChannelHex(c.r), ChannelHex(c.g), ChannelHex(c.b);
    var s := ColourHex(c);
    assert s == "#" + red + green + blue;
    assert s[1..3] == red by {
      assert forall k :: 1 <= k < 3 ==> s[k] == red[k - 1];
    }
    assert s[3..5] == green by {
      assert forall k :: 3 <= k < 5 ==> s[k] == green[k - 3];
    }
    assert s[5..7] == blue by {
      assert forall k :: 5 <= k < 7 ==> s[k] == blue[k - 5];
    }
  }

  /** What the analyser derives from a patch before it writes the sentence. */
  datatype Descriptor = Descriptor(average: Colour, lightness: real, saturation: real, hue: real, sharpness: real)

  /** The channel averages of the accumulated sums. */
  function Average(stats: PatchStats): Colour
    requires stats.count > 0
  {
    Colour(stats.rSum as real / stats.count as real, stats.gSum as real / stats.count as real,
           stats.bSum as real / stats.count as real)
  }

  /** The sums account for `count` pixels of byte values. */
  predicate SumsInRange(stats: PatchStats)
  {
    && 0 <= stats.rSum <= 255 * stats.count
    && 0 <= stats.gSum <= 255 * stats.count
    && 0 <= stats.bSum <= 255 * stats.count
  }

  lemma MeanInByteRange(sum: int, count: nat)
    requires count > 0 && 0 <= sum <= 255 * count
    ensures 0.0 <= sum as real / count as real <= 255.0
  {
    var q := sum as real / count as real;
    assert q * count as real == sum as real;
    if q > 255.0 {
      MulStrictMonotonic(255.0, q, count as real);
    }
  }

  /** The descriptor computed from the loop's totals for a patch of side `patch`. */
  function DescriptorOf(stats: PatchStats, patch: nat): (d: Descriptor)
    requires stats.count > 0 && SumsInRange(stats)
    ensures InByteRange(d.average)
    ensures 0.0 <= d.lightness <= 1.0 && 0.0 <= d.saturation <= 1.0 && 0.0 <= d.hue < 360.0
  {
    MeanInByteRange(stats.rSum, stats.count);
    MeanInByteRange(stats.gSum, stats.count);
    MeanInByteRange(stats.bSum, stats.count);
    var average := Average(stats);
    Descriptor(average, Lightness(average), Saturation(average), Hue(average), Sharpness(stats.sharpnessAccum, patch))
  }

  /** The lighting hint: a sentence on the light, then one on the sharpness. */
  function HintText(d: Descriptor): string
    requires InByteRange(d.average)
    requires 0.0 <= d.lightness <= 1.0 && 0.0 <= d.saturation <= 1.0 && 0.0 <= d.hue < 360.0
  {
    LightSentence(d) + " " + SharpnessSentence(d.sharpness)
  }

  function LightSentence(d: Descriptor): string
    requires InByteRange(d.average)
    requires 0.0 <= d.lightness <= 1.0 && 0.0 <= d.saturation <= 1.0 && 0.0 <= d.hue < 360.0
  {
    var hue := Round(d.hue);
    var satPct := Round(d.saturation * 100.0);
    var lightPct := Round(d.lightness * 100.0);
    "Local light near placement is " + TempLabel(IsWarm(d.hue, d.saturation))
      + " (avg " + ColourHex(d.average)
      + ", hue " + JsFormat.ToString(hue, 10)
      + "\U{00B0}, sat " + JsFormat.ToString(satPct, 10)
      + "%, lightness " + JsFormat.ToString(lightPct, 10)
      + "%)."
  }

  function SharpnessSentence(sharpness: real): string
  {
    "The area appears " + SharpLabel(sharpness) + "."
  }

  /** The totals of a whole patch, as the pixel loop must find them. */
  function PatchTotals(data: seq<Byte>, patch: nat): (stats: PatchStats)
    requires WellSized(data, patch)
    ensures stats.count == patch * patch && SumsInRange(stats)
  {
    ChannelSumBounds(data, 0, patch * patch);
    ChannelSumBounds(data, 1, patch * patch);
    ChannelSumBounds(data, 2, patch * patch);
    PatchStats(ChannelSum(data, 0, patch * patch), ChannelSum(data, 1, patch * patch), ChannelSum(data, 2, patch * patch),
               patch * patch, HorizontalGradients(data, patch, patch) + VerticalGradients(data, patch, patch))
  }

  /** The hint for a patch buffer. */
  function LightingHint(data: seq<Byte>, patch: nat): string
    requires WellSized(data, patch) && patch > 0
  {
    var stats := PatchTotals(data, patch);
    assert stats.count > 0 by {
      assert patch * patch >= patch;
    }
    HintText(DescriptorOf(stats, patch))
  }

  /** The hint closes with the sharpness sentence. */
  lemma HintEndsWithSharpness(d: Descriptor)
    requires InByteRange(d.average)
    requires 0.0 <= d.lightness <= 1.0 && 0.0 <= d.saturation <= 1.0 && 0.0 <= d.hue < 360.0
    ensures var hint, tail := HintText(d), SharpnessSentence(d.sharpness);
            |tail| < |hint| && hint[|hint| - |tail|..] == tail
  {
    var head := LightSentence(d) + " ";
    var tail := SharpnessSentence(d.sharpness);
    assert HintText(d) == head + tail;
    assert (head + tail)[|head|..] == tail;
  }

  // ----- A patch of one colour -----

  /** Every one of the first `n` pixels has the colour of pixel 0. */
  predicate Uniform(data: seq<Byte>, n: nat)
    requires 0 < n && n * 4 <= |data|
  {
    forall k :: 0 <= k < n ==> ColourAt(data, k) == ColourAt(data, 0)
  }

  lemma {:induction false} UniformRowHorizontal(data: seq<Byte>, total: nat, start: nat, n: nat)
    requires 0 < total && total * 4 <= |data| && Uniform(data, total) && start + n <= total
    ensures RowHorizontal(data, start, n) == 0.0
  {
    if n > 1 {
      UniformRowHorizontal(data, total, start, n - 1);
      assert ColourAt(data, start + n - 1) == ColourAt(data, start + n - 2);
    }
  }

  lemma {:induction false} UniformRowVertical(data: seq<Byte>, total: nat, start: nat, patch: nat, n: nat)
    requires 0 < total && total * 4 <= |data| && Uniform(data, total)
    requires patch <= start && n <= patch && start + n <= total
    ensures RowVertical(data, start, patch, n) == 0.0
  {
    if n > 0 {
      UniformRowVertical(data, total, start, patch, n - 1);
      assert ColourAt(data, start + n - 1) == ColourAt(data, start - patch + n - 1);
    }
  }

  lemma {:induction false} UniformGradients(data: seq<Byte>, patch: nat, rows: nat)
    requires WellSized(data, patch) && 0 < patch && rows <= patch && Uniform(data, patch * patch)
    ensures HorizontalGradients(data, patch, rows) == 0.0 && VerticalGradients(data, patch, rows) == 0.0
  {
    RowOffsetIsProduct(patch, patch);
    RowOffsetInBuffer(patch, rows);
    if rows > 0 {
      UniformGradients(data, patch, rows - 1);
      UniformRowHorizontal(data, patch * patch, RowOffset(patch, rows - 1), patch);
      if rows > 1 {
        UniformRowVertical(data, patch * patch, RowOffset(patch, rows - 1), patch, patch);
      }
    }
  }

  lemma {:induction false} UniformChannelSum(data: seq<Byte>, total: nat, c: nat, n: nat)
    requires 0 < total && total * 4 <= |data| && Uniform(data, total) && c < 3 && n <= total
    ensures ChannelSum(data, c, n) == n * data[c]
  {
    if n > 0 {
      UniformChannelSum(data, total, c, n - 1);
      assert ColourAt(data, n - 1) == ColourAt(data, 0);
      assert data[(n - 1) * 4 + c] == data[c];
    }
  }

  /**
   * A patch of one colour has that colour as its average and no neighbour
   * differences, so the hint calls it soft.
   */
  lemma UniformPatchIsSoft(data: seq<Byte>, patch: nat)
    requires WellSized(data, patch) && 0 < patch && Uniform(data, patch * patch)
    ensures var stats := PatchTotals(data, patch);
            && stats.count > 0 && Average(stats) == ColourAt(data, 0)
            && Sharpness(stats.sharpnessAccum, patch) == 0.0 && SharpLabel(Sharpness(stats.sharpnessAccum, patch)) == SoftLabel
  {
    var n := patch * patch;
    PatchHasPixels(patch);
    UniformGradients(data, patch, patch);
    UniformChannelSum(data, n, 0, n);
    UniformChannelSum(data, n, 1, n);
    UniformChannelSum(data, n, 2, n);
    MeanOfEqualValues(data[0], n);
    MeanOfEqualValues(data[1], n);
    MeanOfEqualValues(data[2], n);
  }

  // ----- A checkerboard patch -----

  const White := Colour(255.0, 255.0, 255.0)
  const Black := Colour(0.0, 0.0, 0.0)

  /** The colour of pixel (px, py) of a patch x patch buffer. */
  function PixelColour(data: seq<Byte>, patch: nat, py: nat, px: nat): Colour
    requires WellSized(data, patch) && py < patch && px < patch
  {
    PixelIndexInRange(patch, py, px);
    ColourAt(data, py * patch + px)
  }

  /** A black and white checkerboard: pixel (px, py) is white when px + py is even and black otherwise. */
  predicate Checkerboard(data: seq<Byte>, patch: nat)
    requires WellSized(data, patch)
  {
    forall py: nat, px: nat :: py < patch && px < patch ==>
      PixelColour(data, patch, py, px) == if (px + py) % 2 == 0 then White else Black
  }

  /** The luma of checkerboard pixel (px, py): 255 on white squares, 0 on black ones. */
  lemma CheckerLuma(data: seq<Byte>, patch: nat, py: nat, px: nat)
    requires WellSized(data, patch) && Checkerboard(data, patch) && py < patch && px < patch
    ensures (RowOffset(patch, py) + px) * 4 + 4 <= |data|
    ensures LumaAt(data, RowOffset(patch, py) + px) == if (px + py) % 2 == 0 then 255.0 else 0.0
  {
    RowOffsetIsProduct(patch, py);
    PixelIndexInRange(patch, py, px);
    assert PixelColour(data, patch, py, px) == ColourAt(data, py * patch + px);
  }

  lemma CheckerHorizontalPair(data: seq<Byte>, patch: nat, py: nat, px: nat)
    requires WellSized(data, patch) && Checkerboard(data, patch) && py < patch && 0 < px < patch
    ensures (RowOffset(patch, py) + px) * 4 + 4 <= |data|
    ensures Abs(LumaAt(data, RowOffset(patch, py) + px) - LumaAt(data, RowOffset(patch, py) + px - 1)) == 255.0
  {
    CheckerLuma(data, patch, py, px);
    CheckerLuma(data, patch, py, px - 1);
  }

  lemma CheckerVerticalPair(data: seq<Byte>, patch: nat, py: nat, px: nat)
    requires WellSized(data, patch) && Checkerboard(data, patch) && 0 < py < patch && px < patch
    ensures (RowOffset(patch, py) + px) * 4 + 4 <= |data| && RowOffset(patch, py) - patch == RowOffset(patch, py - 1)
    ensures Abs(LumaAt(data, RowOffset(patch, py) + px) - LumaAt(data, RowOffset(patch, py - 1) + px)) == 255.0
  {
    CheckerLuma(data, patch, py, px);
    CheckerLuma(data, patch, py - 1, px);
  }

  /** Along a checkerboard row every horizontal neighbour pair differs by the full 255. */
  lemma {:induction false} CheckerRowHorizontal(data: seq<Byte>, patch: nat, py: nat, n: nat)
    requires WellSized(data, patch) && Checkerboard(data, patch) && py < patch && 0 < n <= patch
    ensures (RowOffset(patch, py) + n) * 4 <= |data|
    ensures RowHorizontal(data, RowOffset(patch, py), n) == 255.0 * (n - 1) as real
  {
    RowOffsetInBuffer(patch, py + 1);
    if n > 1 {
      CheckerRowHorizontal(data, patch, py, n - 1);
      CheckerHorizontalPair(data, patch, py, n - 1);
    }
  }

  /** Between two checkerboard rows every vertical neighbour pair differs by the full 255. */
  lemma {:induction false} CheckerRowVertical(data: seq<Byte>, patch: nat, py: nat, n: nat)
    requires WellSized(data, patch) && Checkerboard(data, patch) && 0 < py < patch && n <= patch
    ensures patch <= RowOffset(patch, py) && (RowOffset(patch, py) + n) * 4 <= |data|
    ensures RowVertical(data, RowOffset(patch, py), patch, n) == 255.0 * n as real
  {
    RowOffsetInBuffer(patch, py + 1);
    if n > 0 {
      CheckerRowVertical(data, patch, py, n - 1);
      CheckerVerticalPair(data, patch, py, n - 1);
    }
  }

  /** On a checkerboard each of the terms the pixel loop adds is 255. */
  lemma {:induction false} CheckerGradients(data: seq<Byte>, patch: nat, rows: nat)
    requires WellSized(data, patch) && Checkerboard(data, patch) && rows <= patch
    ensures HorizontalGradients(data, patch, rows) + VerticalGradients(data, patch, rows) == 255.0 * GradientTerms(patch, rows) as real
  {
    if rows > 0 {
      CheckerGradients(data, patch, rows - 1);
      CheckerRowHorizontal(data, patch, rows - 1, patch);
      if rows > 1 {
        CheckerRowVertical(data, patch, rows - 1, patch);
      }
    }
  }

  /**
   * A black and white checkerboard of side at least 2 differs by 255 at every
   * comparison, so its sharpness is 1 and the hint calls it very sharp.
   */
  lemma CheckerboardIsVerySharp(data: seq<Byte>, patch: nat)
    requires WellSized(data, patch) && 2 <= patch && Checkerboard(data, patch)
    ensures var stats := PatchTotals(data, patch);
            && Sharpness(stats.sharpnessAccum, patch) == 1.0
            && SharpLabel(Sharpness(stats.sharpnessAccum, patch)) == "very sharp"
  {
    var accum := HorizontalGradients(data, patch, patch) + VerticalGradients(data, patch, patch);
    assert PatchTotals(data, patch).sharpnessAccum == accum;
    CheckerGradients(data, patch, patch);
    GradientTermsTotal(patch, patch);
    ComparisonsPositive(patch);
    FullSharpness(accum, patch);
  }

  lemma ComparisonsPositive(patch: nat)
    requires 2 <= patch
    ensures Comparisons(patch) > 0
  {
    ProductStep(patch, patch - 1);
  }

  /** Differences of 255 at every comparison normalise to a sharpness of exactly 1. */
  lemma FullSharpness(accum: real, patch: nat)
    requires Comparisons(patch) > 0 && accum == 255.0 * Comparisons(patch) as real
    ensures Sharpness(accum, patch) == 1.0
  {
    var d := (Comparisons(patch) * 255) as real;
    assert d == accum;
    SelfRatio(d);
  }

  lemma SelfRatio(d: real)
    requires d > 0.0
    ensures d / d == 1.0
  {
  }

  lemma PatchHasPixels(patch: nat)
    requires 0 < patch
    ensures patch * patch >= patch
  {
    assert patch * patch - patch == patch * (patch - 1);
  }

  lemma MeanOfEqualValues(v: int, n: nat)
    requires n > 0
    ensures (n * v) as real / n as real == v as real
  {
    assert (n * v) as real == n as real * v as real;
  }

  // ----- Reading the patch from the canvas -----

  /** A canvas: `width` x `height` RGBA pixels, row-major, four bytes each. */
  datatype Raster = Raster(width: nat, height: nat, pixels: seq<Byte>)

  predicate ValidRaster(r: Raster)
  {
    |r.pixels| == r.width * r.height * 4
  }

  lemma CellInRaster(r: Raster, x: nat, y: nat)
    requires ValidRaster(r) && x < r.width && y < r.height
    ensures (y * r.width + x) * 4 + 4 <= |r.pixels|
  {
    var w, h := r.width, r.height;
    var below: nat := h - y - 1;
    assert (y + 1) * w == y * w + w;
    assert w * h == (y + 1) * w + below * w;
    assert below * w >= 0;
    assert y * w + x + 1 <= w * h;
  }

  /** One byte of canvas pixel (x, y); outside the canvas getImageData reads transparent black. */
  function CanvasByte(r: Raster, x: int, y: int, c: nat): Byte
    requires ValidRaster(r) && c < 4
  {
    if 0 <= x < r.width && 0 <= y < r.height then
      CellInRaster(r, x, y);
      r.pixels[(y * r.width + x) * 4 + c]
    else 0
  }

  /** The four bytes of canvas pixel (x, y). */
  function PixelBytes(r: Raster, x: int, y: int): (bytes: seq<Byte>)
    requires ValidRaster(r)
    ensures |bytes| == 4
  {
    [CanvasByte(r, x, y, 0), CanvasByte(r, x, y, 1), CanvasByte(r, x, y, 2), CanvasByte(r, x, y, 3)]
  }

  /** The first `w` pixels of canvas row `y` from column `x`, left to right. */
  function RowData(r: Raster, x: int, y: int, w: nat): (data: seq<Byte>)
    requires ValidRaster(r)
    ensures |data| == w * 4
  {
    if w == 0 then [] else RowData(r, x, y, w - 1) + PixelBytes(r, x + w - 1, y)
  }

  /** `getImageData(x, y, w, h).data`: the w x h rectangle at (x, y), row by row, four bytes per pixel. */
  function GetImageData(r: Raster, x: int, y: int, w: nat, h: nat): (data: seq<Byte>)
    requires ValidRaster(r)
    ensures |data| == w * h * 4
  {
    if h == 0 then []
    else
      assert w * h * 4 == w * (h - 1) * 4 + w * 4;
      GetImageData(r, x, y, w, h - 1) + RowData(r, x, y + h - 1, w)
  }

  /** The square window analyzeLocalLighting samples: top-left corner and side. */
  datatype Window = Window(x: int, y: int, side: nat)

  /**
   * About 7% of the canvas, centred on the placement point and clamped so that
   * it stays on a canvas at least as large as the window.
   */
  function SampleWindow(position: Positioning.RelativePosition, originalWidth: real, originalHeight: real,
                        canvasWidth: nat): (w: Window)
    requires originalWidth > 0.0 && originalHeight > 0.0 && canvasWidth > 0
    ensures w.side >= 16 && w.x >= 0 && w.y >= 0
    ensures canvasWidth >= w.side ==> w.x + w.side <= canvasWidth && w.y + w.side <= canvasWidth
    ensures w.side == ImageGeometry.PatchSide(canvasWidth)
    ensures var centre := ImageGeometry.AnalysisCentre(position, originalWidth, originalHeight, canvasWidth);
            && w.x == ImageGeometry.PatchOrigin(centre.x, w.side, canvasWidth)
            && w.y == ImageGeometry.PatchOrigin(centre.y, w.side, canvasWidth)
  {
    var centre := ImageGeometry.AnalysisCentre(position, originalWidth, originalHeight, canvasWidth);
    var patch := ImageGeometry.PatchSide(canvasWidth);
    Window(ImageGeometry.PatchOrigin(centre.x, patch, canvasWidth), ImageGeometry.PatchOrigin(centre.y, patch, canvasWidth), patch)
  }

  /**
   * Away from the canvas edges the window is centred on the placement point:
   * its middle is within half a pixel of the point on each axis.
   */
  lemma WindowCentredOnPlacement(position: Positioning.RelativePosition, originalWidth: real, originalHeight: real,
                                 canvasWidth: nat)
    requires originalWidth > 0.0 && originalHeight > 0.0 && canvasWidth > 0
    ensures var w := SampleWindow(position, originalWidth, originalHeight, canvasWidth);
            var centre := ImageGeometry.AnalysisCentre(position, originalWidth, originalHeight, canvasWidth);
            && (0 < w.x < canvasWidth - w.side ==> -0.5 <= centre.x - (w.x as real + w.side as real / 2.0) < 0.5)
            && (0 < w.y < canvasWidth - w.side ==> -0.5 <= centre.y - (w.y as real + w.side as real / 2.0) < 0.5)
  {
  }

  /**
   * analyzeLocalLighting on the loaded scene canvas: reads the window around
   * the placement point, runs the pixel loop and writes the hint.
   */
  method AnalyzeLocalLighting(canvas: Raster, position: Positioning.RelativePosition, originalWidth: real,
                              originalHeight: real) returns (hint: string)
    requires ValidRaster(canvas) && canvas.width > 0
    requires originalWidth > 0.0 && originalHeight > 0.0
    ensures var w := SampleWindow(position, originalWidth, originalHeight, canvas.width);
            hint == LightingHint(GetImageData(canvas, w.x, w.y, w.side, w.side), w.side)
  {
    var w := SampleWindow(position, originalWidth, originalHeight, canvas.width);
    var data := GetImageData(canvas, w.x, w.y, w.side, w.side);
    assert WellSized(data, w.side);
    var stats;
    ghost var terms;
    stats, terms := SamplePatch(data, w.side);
    assert stats == PatchTotals(data, w.side);
    PatchHasPixels(w.side);
    hint := HintText(DescriptorOf(stats, w.side));
  }
}
