/**
 * drawing/generator.py: the unit-to-pixel conversion and the ruled sheet
 * (horizontal rules every line gap down to a bottom limit, then one vertical
 * margin rule), drawn into the abstract Drawing sink.
 */
module Generator {
  import opened Wrappers
  import opened Errors
  import opened Svg

  predicate ValidUnit(unit: string)
  {
    unit == "mm" || unit == "cm" || unit == "in"
  }

  /** Python 3 round() on a number: the nearest integer, ties to the even one. */
  function RoundHalfEven(x: real): (r: int)
    ensures -0.5 <= x - r as real <= 0.5
    ensures (x - r as real == 0.5 || r as real - x == 0.5) ==> r % 2 == 0
  {
    var f := x.Floor;
    var d := x - f as real;
    if d < 0.5 then f
    else if d > 0.5 then f + 1
    else if f % 2 == 0 then f
    else f + 1
  }

  /** mm_to_px(length, dpi, unit). */
  function MmToPx(length: real, dpi: int, unit: string): (r: Result<int, Error>)
    ensures r.Failure? <==> !ValidUnit(unit)
    ensures r.Failure? ==> r.error == ValueError(InvalidUnit)
  {
    if unit == "mm" then Success(RoundHalfEven(length * dpi as real / 25.4))
    else if unit == "cm" then Success(RoundHalfEven(length * dpi as real / 2.54))
    else if unit == "in" then Success(RoundHalfEven(length * dpi as real))
    else Failure(ValueError(InvalidUnit))
  }

  /** How many units make an inch: 25.4 millimetres, 2.54 centimetres, one inch. */
  function UnitsPerInch(unit: string): real
  {
    if unit == "mm" then 25.4 else if unit == "cm" then 2.54 else 1.0
  }

  /** Every supported unit goes through the same rounding of length * dpi / (units per inch). */
  lemma MmToPxRounds(length: real, dpi: int, unit: string)
    requires ValidUnit(unit)
    ensures MmToPx(length, dpi, unit).value == RoundHalfEven(length * dpi as real / UnitsPerInch(unit))
  {
    if unit == "in" {
      assert unit != "mm" && unit != "cm" by { assert unit[0] != "mm"[0] && unit[0] != "cm"[0]; }
      assert length * dpi as real / 1.0 == length * dpi as real;
    } else if unit == "cm" {
      assert unit != "mm" by { assert unit[0] != "mm"[0]; }
    }
  }

  /**
   * mm_to_px is the nearest whole pixel to length * dpi / (units per inch),
   * a tie going to the even one.
   */
  lemma MmToPxNearest(length: real, dpi: int, unit: string)
    requires ValidUnit(unit)
    ensures var exact := length * dpi as real / UnitsPerInch(unit);
            var px := MmToPx(length, dpi, unit).value;
            && -0.5 <= exact - px as real <= 0.5
            && ((exact - px as real == 0.5 || px as real - exact == 0.5) ==> px % 2 == 0)
  {
    MmToPxRounds(length, dpi, unit);
  }

  /** mm_to_px at the default 96 dpi for a supported unit. */
  function ToPx(length: real, unit: string): int
    requires ValidUnit(unit)
  {
    MmToPx(length, 96, unit).value
  }

  /** mm_to_px(length) with every default: 96 dpi, millimetres. */
  function Px(length: real): int
  {
    ToPx(length, "mm")
  }

  lemma RoundHalfEvenMonotone(x: real, y: real)
    requires x <= y
    ensures RoundHalfEven(x) <= RoundHalfEven(y)
  {
    var fx, fy := x.Floor, y.Floor;
    if fx == fy {
      if x - fx as real == 0.5 && y - fy as real == 0.5 {
        assert RoundHalfEven(x) == RoundHalfEven(y);
      }
    } else {
      assert fx < fy;
    }
  }

  lemma MmToPxZero(dpi: int, unit: string)
    requires ValidUnit(unit)
    ensures MmToPx(0.0, dpi, unit) == Success(0)
  {
    assert 0.0.Floor == 0;
  }

  /** Scaling by a non-negative factor over a positive divisor keeps the order. */
  lemma ScaleMonotone(x: real, y: real, num: real, den: real)
    requires x <= y && num >= 0.0 && den > 0.0
    ensures x * num / den <= y * num / den
  {
    var d := y - x;
    assert d * num >= 0.0;
    assert y * num == x * num + d * num;
    assert y * num / den - x * num / den == d * num / den;
  }

  lemma MmToPxMonotone(a: real, b: real, dpi: int, unit: string)
    requires a <= b && dpi >= 0 && ValidUnit(unit)
    ensures MmToPx(a, dpi, unit).value <= MmToPx(b, dpi, unit).value
  {
    var divisor := UnitsPerInch(unit);
    ScaleMonotone(a, b, dpi as real, divisor);
    RoundHalfEvenMonotone(a * dpi as real / divisor, b * dpi as real / divisor);
    MmToPxRounds(a, dpi, unit);
    MmToPxRounds(b, dpi, unit);
  }

  /** Over exact reals ten millimetres and one centimetre convert alike. */
  lemma MillimetresAndCentimetresAgree(length: real, dpi: int)
    ensures MmToPx(10.0 * length, dpi, "mm") == MmToPx(length, dpi, "cm")
  {
    assert (10.0 * length) * dpi as real / 25.4 == length * dpi as real / 2.54;
  }

  /** The pixel values of the constants the renderer uses. */
  lemma DefaultConstants()
    ensures Px(0.0) == 0 && Px(5.0) == 19 && Px(8.0) == 30 && Px(15.0) == 57
  {
    MmToPxZero(96, "mm");
    assert (5.0 * 96.0 / 25.4).Floor == 18;
    assert (8.0 * 96.0 / 25.4).Floor == 30;
    assert (15.0 * 96.0 / 25.4).Floor == 56;
  }

  /**
   * The horizontal rules the while loop emits from pixel row y while y stays
   * at or above the bottom limit; the loop ends only if the gap is positive
   * or it never starts.
   */
  function RuleLines(y: int, gap: int, bottom: int, x0: int, x1: int, strokeWidth: int, color: string): seq<Element>
    requires gap > 0 || y > bottom
    decreases if y > bottom then 0 else bottom - y + 1
  {
    if y > bottom then []
    else [Line(x0, y, x1, y, strokeWidth, color)] + RuleLines(y + gap, gap, bottom, x0, x1, strokeWidth, color)
  }

  /** One more gap: (start + gap) + m * gap is start + (m + 1) * gap. */
  lemma OneMoreGap(start: int, gap: int, m: int)
    ensures (start + gap) + m * gap == start + (m + 1) * gap
  {
  }

  /** Rule k is at start + k * gap, on or above the bottom, and the next one would be below it. */
  lemma {:induction false} RuleLinesAt(start: int, gap: int, bottom: int, x0: int, x1: int,
                                       strokeWidth: int, color: string, k: nat)
    requires gap > 0 || start > bottom
    ensures start + |RuleLines(start, gap, bottom, x0, x1, strokeWidth, color)| * gap > bottom
    ensures k < |RuleLines(start, gap, bottom, x0, x1, strokeWidth, color)| ==>
              start + k * gap <= bottom
              && RuleLines(start, gap, bottom, x0, x1, strokeWidth, color)[k]
                 == Line(x0, start + k * gap, x1, start + k * gap, strokeWidth, color)
    decreases if start > bottom then 0 else bottom - start + 1
  {
    if start <= bottom {
      var rest := RuleLines(start + gap, gap, bottom, x0, x1, strokeWidth, color);
      var j := if k == 0 then 0 else k - 1;
      RuleLinesAt(start + gap, gap, bottom, x0, x1, strokeWidth, color, j);
      OneMoreGap(start, gap, |rest|);
      OneMoreGap(start, gap, j);
    }
  }

  /** What the loop may rely on to terminate: a positive pixel gap, or a first rule already below the limit. */
  predicate RulesTerminate(height: real, offsetVertical: real, lineGap: real, unit: string)
    requires ValidUnit(unit)
  {
    ToPx(lineGap, unit) > 0 || ToPx(offsetVertical, unit) > ToPx(height, unit) - ToPx(15.0, unit)
  }

  /** Every element create_svg_with_ruled_lines adds, in order. */
  function RuledSheet(width: real, height: real, offsetHorizontal: real, offsetVertical: real,
                      lineGap: real, lineColor: string, lineWidth: real, unit: string): seq<Element>
    requires ValidUnit(unit) && RulesTerminate(height, offsetVertical, lineGap, unit)
  {
    RuleLines(ToPx(offsetVertical, unit), ToPx(lineGap, unit), ToPx(height, unit) - ToPx(15.0, unit),
              ToPx(0.0, unit), ToPx(width, unit), ToPx(lineWidth, unit), lineColor)
    + [Line(ToPx(offsetHorizontal, unit), ToPx(0.0, unit), ToPx(offsetHorizontal, unit), ToPx(height, unit),
            ToPx(lineWidth, unit), lineColor)]
  }

  /**
   * The sheet is a run of full-width horizontal rules starting at the
   * vertical offset, one gap apart, none below the bottom limit, followed
   * by exactly one full-height vertical rule at the horizontal offset.
   */
  lemma RuledSheetLayout(width: real, height: real, offsetHorizontal: real, offsetVertical: real,
                         lineGap: real, lineColor: string, lineWidth: real, unit: string, k: nat)
    requires ValidUnit(unit) && RulesTerminate(height, offsetVertical, lineGap, unit)
    ensures var sheet := RuledSheet(width, height, offsetHorizontal, offsetVertical, lineGap, lineColor, lineWidth, unit);
            var y := ToPx(offsetVertical, unit) + k * ToPx(lineGap, unit);
            && |sheet| >= 1
            && sheet[|sheet| - 1] == Line(ToPx(offsetHorizontal, unit), 0, ToPx(offsetHorizontal, unit),
                                          ToPx(height, unit), ToPx(lineWidth, unit), lineColor)
            && (k < |sheet| - 1 ==>
                  sheet[k] == Line(0, y, ToPx(width, unit), y, ToPx(lineWidth, unit), lineColor)
                  && y <= ToPx(height, unit) - ToPx(15.0, unit))
            && (k == |sheet| - 1 ==> y > ToPx(height, unit) - ToPx(15.0, unit))
  {
    MmToPxZero(96, unit);
    var start, gap, bottom := ToPx(offsetVertical, unit), ToPx(lineGap, unit), ToPx(height, unit) - ToPx(15.0, unit);
    RuleLinesAt(start, gap, bottom, 0, ToPx(width, unit), ToPx(lineWidth, unit), lineColor, k);
  }

  /** create_svg_with_ruled_lines: a fresh, unsaved drawing holding the ruled sheet. */
  method CreateSvgWithRuledLines(filename: string, size: (real, real), offsetHorizontal: real,
                                 offsetVertical: real, lineGap: real, lineColor: string,
                                 lineWidth: real, unit: string)
    returns (r: Result<Drawing, Error>)
    requires ValidUnit(unit) ==> RulesTerminate(size.1, offsetVertical, lineGap, unit)
    ensures r.Failure? <==> !ValidUnit(unit)
    ensures r.Failure? ==> r.error == ValueError(InvalidUnit)
    ensures r.Success? ==> fresh(r.value) && !r.value.saved
    ensures r.Success? ==> r.value.filename == filename && r.value.width == size.0
                           && r.value.height == size.1 && r.value.unit == unit
    ensures r.Success? ==> r.value.viewbox == Some((ToPx(size.0, unit), ToPx(size.1, unit)))
    ensures r.Success? ==> r.value.elements == RuledSheet(size.0, size.1, offsetHorizontal, offsetVertical,
                                                          lineGap, lineColor, lineWidth, unit)
  {
    var (width, height) := size;
    var dwg := new Drawing(filename, width, height, unit);
    var viewWidth := MmToPx(width, 96, unit);
    if viewWidth.Failure? {
      return Failure(viewWidth.error);
    }
    dwg.SetViewbox(viewWidth.value, ToPx(height, unit));

    var xStart := ToPx(offsetHorizontal, unit);
    var yStart := ToPx(offsetVertical, unit);
    // mm_to_px is pure: the values the loop recomputes on every pass are computed once here.
    var gap, bottom := ToPx(lineGap, unit), ToPx(height, unit) - ToPx(15.0, unit);
    var left, right, thick := ToPx(0.0, unit), ToPx(width, unit), ToPx(lineWidth, unit);
    ghost var all := RuleLines(yStart, gap, bottom, left, right, thick, lineColor);
    while yStart <= bottom
      invariant gap > 0 || yStart > bottom
      invariant dwg.viewbox == Some((right, ToPx(height, unit))) && !dwg.saved
      invariant dwg.elements + RuleLines(yStart, gap, bottom, left, right, thick, lineColor) == all
      decreases if yStart > bottom then 0 else bottom - yStart + 1
    {
      var rule := Line(left, yStart, right, yStart, thick, lineColor);
      ghost var rest := RuleLines(yStart + gap, gap, bottom, left, right, thick, lineColor);
      assert (dwg.elements + [rule]) + rest == dwg.elements + ([rule] + rest);
      dwg.Add(rule);
      yStart := yStart + gap;
    }

    dwg.Add(Line(xStart, left, xStart, ToPx(height, unit), thick, lineColor));
    return Success(dwg);
  }
}
