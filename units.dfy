/**
 * Linear conversions between human units (inches, points, centimetres,
 * pixels) and EMU, the Slides API's native length unit. Every conversion
 * into EMU multiplies by a constant and truncates toward zero, as Python's
 * `int()` does; every conversion out of EMU is an exact division.
 */
module Units {
  import opened Wrappers

  const EMU_PER_INCH: int := 914400
  const EMU_PER_POINT: int := 12700
  const EMU_PER_CM: int := 360000
  const EMU_PER_PIXEL_96DPI: int := 9525

  /** 16:9 widescreen, the default slide. */
  const SLIDE_WIDTH_EMU: int := 9144000
  const SLIDE_HEIGHT_16_9_EMU: int := 5143500
  /** 4:3 standard. */
  const SLIDE_HEIGHT_4_3_EMU: int := 6858000
  /** 16:10. */
  const SLIDE_HEIGHT_16_10_EMU: int := 5715000

  /** Python's `int(x)` on a float: truncation toward zero. */
  function Trunc(x: real): (n: int)
    ensures 0.0 <= x ==> 0 <= n && n as real <= x < n as real + 1.0
    ensures x < 0.0 ==> n <= 0 && n as real - 1.0 < x <= n as real
  {
    if x >= 0.0 then x.Floor else -((-x).Floor)
  }

  /** `int(value * emuPerUnit)`: the shape shared by every conversion into EMU. */
  function ToEmu(value: real, emuPerUnit: int): int {
    Trunc(value * emuPerUnit as real)
  }

  /** `emu / emuPerUnit`: the shape shared by every conversion out of EMU. */
  function FromEmu(emu: int, emuPerUnit: int): real
    requires emuPerUnit > 0
  {
    emu as real / emuPerUnit as real
  }

  function InchesToEmu(inches: real): int { ToEmu(inches, EMU_PER_INCH) }
  function EmuToInches(emu: int): real { FromEmu(emu, EMU_PER_INCH) }
  function PointsToEmu(points: real): int { ToEmu(points, EMU_PER_POINT) }
  function EmuToPoints(emu: int): real { FromEmu(emu, EMU_PER_POINT) }
  function CmToEmu(cm: real): int { ToEmu(cm, EMU_PER_CM) }
  function EmuToCm(emu: int): real { FromEmu(emu, EMU_PER_CM) }

  datatype ConversionError = ZeroDpi

  /**
   * `pixels_to_emu`: a fast path at 96 dpi, otherwise
   * `int(pixels * EMU_PER_INCH / dpi)`, which raises for `dpi == 0`.
   */
  function PixelsToEmu(pixels: real, dpi: int): (r: Result<int, ConversionError>)
    ensures r.Err? <==> dpi == 0
    ensures r.Ok? ==> r.value == Trunc(pixels * EMU_PER_INCH as real / dpi as real)
  {
    if dpi == 96 then Ok(ToEmu(pixels, EMU_PER_PIXEL_96DPI))
    else if dpi == 0 then Err(ZeroDpi)
    else Ok(Trunc(pixels * EMU_PER_INCH as real / dpi as real))
  }

  /** `emu_to_pixels`: a fast path at 96 dpi, otherwise `emu * dpi / EMU_PER_INCH`. */
  function EmuToPixels(emu: int, dpi: int): (r: real)
    ensures r == emu as real * dpi as real / EMU_PER_INCH as real
  {
    if dpi == 96 then FromEmu(emu, EMU_PER_PIXEL_96DPI)
    else emu as real * dpi as real / EMU_PER_INCH as real
  }

  /**
   * Converting into EMU and back loses less than one EMU, always toward
   * zero: for a non-negative value the result is at most the value.
   */
  lemma {:induction false} ToEmuRoundTrip(value: real, emuPerUnit: int)
    requires emuPerUnit > 0
    ensures 0.0 <= value ==>
      0.0 <= value - FromEmu(ToEmu(value, emuPerUnit), emuPerUnit) < 1.0 / emuPerUnit as real
    ensures value < 0.0 ==>
      0.0 <= FromEmu(ToEmu(value, emuPerUnit), emuPerUnit) - value < 1.0 / emuPerUnit as real
  {
    var k := emuPerUnit as real;
    var n := ToEmu(value, emuPerUnit);
    var scaled := value * k;
    assert scaled / k == value;
    if 0.0 <= value {
      assert 0.0 <= scaled;
      ShrinkFraction(scaled - n as real, k);
      assert value - FromEmu(n, emuPerUnit) == (scaled - n as real) / k;
    } else {
      assert scaled < 0.0;
      ShrinkFraction(n as real - scaled, k);
      assert FromEmu(n, emuPerUnit) - value == (n as real - scaled) / k;
    }
  }

  /** A fraction of one unit, divided by `k`, is a fraction of `1 / k`. */
  lemma ShrinkFraction(d: real, k: real)
    requires 0.0 <= d < 1.0 && k > 0.0
    ensures 0.0 <= d / k < 1.0 / k
  {
    assert d / k * k == d;
    assert 1.0 / k * k == 1.0;
  }

  /** Converting EMU out and back in is exact. */
  lemma FromEmuRoundTrip(emu: int, emuPerUnit: int)
    requires emuPerUnit > 0
    ensures ToEmu(FromEmu(emu, emuPerUnit), emuPerUnit) == emu
  {
    var k := emuPerUnit as real;
    assert emu as real / k * k == emu as real;
  }

  lemma InchesRoundTrip(inches: real)
    requires 0.0 <= inches
    ensures 0.0 <= inches - EmuToInches(InchesToEmu(inches)) < 1.0 / 914400.0
    ensures InchesToEmu(EmuToInches(InchesToEmu(inches))) == InchesToEmu(inches)
  {
    ToEmuRoundTrip(inches, EMU_PER_INCH);
    FromEmuRoundTrip(InchesToEmu(inches), EMU_PER_INCH);
  }

  lemma PointsRoundTrip(points: real)
    requires 0.0 <= points
    ensures 0.0 <= points - EmuToPoints(PointsToEmu(points)) < 1.0 / 12700.0
  {
    ToEmuRoundTrip(points, EMU_PER_POINT);
  }

  lemma CmRoundTrip(cm: real)
    requires 0.0 <= cm
    ensures 0.0 <= cm - EmuToCm(CmToEmu(cm)) < 1.0 / 360000.0
  {
    ToEmuRoundTrip(cm, EMU_PER_CM);
  }

  /** The values the unit tests check. */
  lemma ConversionExamples()
    ensures InchesToEmu(1.0) == 914400 && InchesToEmu(0.5) == 457200 && InchesToEmu(10.0) == 9144000
    ensures EmuToInches(914400) == 1.0 && EmuToInches(9144000) == 10.0 && EmuToInches(0) == 0.0
    ensures InchesToEmu(5.5) == 5029200 && EmuToInches(InchesToEmu(5.5)) == 5.5
    ensures PointsToEmu(1.0) == 12700 && PointsToEmu(72.0) == 72 * 12700
    ensures EmuToPoints(12700) == 1.0 && EmuToPoints(0) == 0.0
    ensures EmuToPoints(PointsToEmu(18.0)) == 18.0
    ensures CmToEmu(2.54) == 914400 && EmuToCm(360000) == 1.0
  {
  }

  /** The 96-dpi fast path agrees with the general formula, since 9525 * 96 == 914400. */
  lemma PixelFastPathAgrees(pixels: real)
    ensures PixelsToEmu(pixels, 96) == Ok(ToEmu(pixels, EMU_PER_PIXEL_96DPI))
    ensures EmuToPixels(914400, 96) == 96.0
  {
  }

  /** The slide constants are whole or fractional inch multiples. */
  lemma SlideConstantsInInches()
    ensures EmuToInches(SLIDE_WIDTH_EMU) == 10.0
    ensures EmuToInches(SLIDE_HEIGHT_16_9_EMU) == 5.625
    ensures EmuToInches(SLIDE_HEIGHT_4_3_EMU) == 7.5
    ensures EmuToInches(SLIDE_HEIGHT_16_10_EMU) == 6.25
    ensures InchesToEmu(10.0) == SLIDE_WIDTH_EMU && InchesToEmu(5.625) == SLIDE_HEIGHT_16_9_EMU
  {
  }
}
