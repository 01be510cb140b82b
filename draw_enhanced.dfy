/**
 * hand/_draw_enhanced.py: the variant renderer that draws on its own ruled
 * sheet (generator.create_svg_with_ruled_lines) at a named paper size.
 *
 * Unlike _draw it moves each line by ONE scalar, the smallest value over
 * both the x and the y column, centres it against the paper width taken in
 * raw millimetres and adds the raw vertical offset.  The composition of
 * offsets_to_coords, denoise and align is the opaque `normalize`.
 */
module DrawEnhanced {
  import opened Wrappers
  import opened Errors
  import opened PageSizes
  import opened Svg
  import opened Generator
  import opened Layout

  /** line_height: the cursor step and the gap of the ruled sheet, in millimetres. */
  const LineHeight: real := 8.0

  /** initial_coord[1] before the first line: -(3 * line_height / 4). */
  const FirstCursor: real := -(3.0 * LineHeight / 4.0)

  /** The default paper_size: PaperSize.get_size("A4"). */
  lemma DefaultPaper()
    ensures Lookup("A4") == Some((210, 297))
  {
  }

  /** strokes[:, :2].min(): the smallest value over the x and y columns together. */
  function GlobalMin(s: seq<Point>): real
    requires |s| > 0
  {
    Min(Xs(s) + Ys(s))
  }

  /** The global minimum is the smaller of the two column minima. */
  lemma GlobalMinIs(s: seq<Point>)
    requires |s| > 0
    ensures GlobalMin(s) == if Min(Xs(s)) <= Min(Ys(s)) then Min(Xs(s)) else Min(Ys(s))
  {
    var a, b := Xs(s), Ys(s);
    var c := a + b;
    assert forall i :: 0 <= i < |c| ==> (i < |a| ==> c[i] == a[i]) && (|a| <= i ==> c[i] == b[i - |a|]);
    var wa := MinAttained(a);
    var wb := MinAttained(b);
    if Min(a) <= Min(b) {
      MinIs(c, Min(a), wa);
    } else {
      MinIs(c, Min(b), |a| + wb);
    }
  }

  /**
   * One non-empty line's coordinates after the flip, the subtraction of the
   * global minimum plus the cursor vector (0, cursor), the centring against
   * viewWidth and the vertical offset.
   */
  function PlaceLine(coords: seq<Point>, cursor: real, viewWidth: real, offsetVertical: real): seq<Point>
    requires |coords| > 0
  {
    var t := AtCursor(coords, cursor);
    Translate(t, (viewWidth - Max(Xs(t))) / 2.0, offsetVertical)
  }

  /** The line flipped in y, less the global minimum in x and the global minimum plus the cursor in y. */
  function AtCursor(coords: seq<Point>, cursor: real): (t: seq<Point>)
    requires |coords| > 0
    ensures |t| == |coords|
  {
    var f := FlipY(coords);
    var m := GlobalMin(f);
    Translate(f, -m, -(m + cursor))
  }

  /** The global minimum of the flipped line in terms of the line's own extremes. */
  lemma FlipGlobalMin(coords: seq<Point>)
    requires |coords| > 0
    ensures GlobalMin(FlipY(coords)) == if Min(Xs(coords)) <= -Max(Ys(coords)) then Min(Xs(coords)) else -Max(Ys(coords))
  {
    GlobalMinIs(FlipY(coords));
    FlipExtremes(coords);
  }

  lemma AtCursorExtremes(coords: seq<Point>, cursor: real)
    requires |coords| > 0
    ensures var t := AtCursor(coords, cursor);
            var m := GlobalMin(FlipY(coords));
            && m == (if Min(Xs(coords)) <= -Max(Ys(coords)) then Min(Xs(coords)) else -Max(Ys(coords)))
            && Min(Xs(t)) == Min(Xs(coords)) - m && Max(Xs(t)) == Max(Xs(coords)) - m
            && Min(Ys(t)) == -Max(Ys(coords)) - (m + cursor)
  {
    var f := FlipY(coords);
    var m := GlobalMin(f);
    var t := AtCursor(coords, cursor);
    FlipGlobalMin(coords);
    assert Min(Xs(t)) == Min(Xs(coords)) - m && Max(Xs(t)) == Max(Xs(coords)) - m by {
      FlipExtremes(coords);
      TranslateXExtremes(f, -m, -(m + cursor));
    }
    assert Min(Ys(t)) == -Max(Ys(coords)) - (m + cursor) by {
      FlipExtremes(coords);
      TranslateYExtremes(f, -m, -(m + cursor));
    }
  }

  /** The placed line is the original mirrored in y and moved as one rigid body. */
  lemma PlaceLineRigid(coords: seq<Point>, cursor: real, viewWidth: real, offsetVertical: real)
    requires |coords| > 0
    ensures var r := PlaceLine(coords, cursor, viewWidth, offsetVertical);
            && |r| == |coords|
            && (forall i :: 0 <= i < |r| ==> r[i].eos == coords[i].eos)
            && (forall i, j :: 0 <= i < |r| && 0 <= j < |r| ==>
                  r[i].x - r[j].x == coords[i].x - coords[j].x
                  && r[i].y - r[j].y == coords[j].y - coords[i].y)
  {
    var m := GlobalMin(FlipY(coords));
    var t := AtCursor(coords, cursor);
    var r := PlaceLine(coords, cursor, viewWidth, offsetVertical);
    var ex := (viewWidth - Max(Xs(t))) / 2.0;
    assert forall i :: 0 <= i < |r| ==>
             r[i] == Point(coords[i].x - m + ex, -coords[i].y - (m + cursor) + offsetVertical, coords[i].eos);
  }

  /** The extremes of the placed line in terms of the line's own extremes and the global minimum. */
  lemma PlaceLineExtremes(coords: seq<Point>, cursor: real, viewWidth: real, offsetVertical: real)
    requires |coords| > 0
    ensures var r := PlaceLine(coords, cursor, viewWidth, offsetVertical);
            var m := GlobalMin(FlipY(coords));
            var shift := (viewWidth - (Max(Xs(coords)) - m)) / 2.0;
            && |r| == |coords|
            && m == (if Min(Xs(coords)) <= -Max(Ys(coords)) then Min(Xs(coords)) else -Max(Ys(coords)))
            && Min(Xs(r)) == Min(Xs(coords)) - m + shift
            && Max(Xs(r)) == Max(Xs(coords)) - m + shift
            && Min(Ys(r)) == -Max(Ys(coords)) - (m + cursor) + offsetVertical
  {
    var t := AtCursor(coords, cursor);
    var r := PlaceLine(coords, cursor, viewWidth, offsetVertical);
    var shift := (viewWidth - Max(Xs(t))) / 2.0;
    AtCursorExtremes(coords, cursor);
    assert Min(Xs(r)) == Min(Xs(t)) + shift && Max(Xs(r)) == Max(Xs(t)) + shift by {
      TranslateXExtremes(t, shift, offsetVertical);
    }
    assert Min(Ys(r)) == Min(Ys(t)) + offsetVertical by {
      TranslateYExtremes(t, shift, offsetVertical);
    }
  }

  /**
   * Where PlaceLine puts a line.  The gap left of it exceeds the gap right
   * of it (up to viewWidth) by exactly the line's smallest x minus the
   * global minimum, so it is centred if and only if its smallest x is no
   * more than minus its largest y (the smallest y after the flip).  Its top
   * lies at least the vertical offset below the cursor, exactly there if
   * and only if the smallest y after the flip is the global minimum.
   */
  lemma PlaceLineGeometry(coords: seq<Point>, cursor: real, viewWidth: real, offsetVertical: real)
    requires |coords| > 0
    ensures var r := PlaceLine(coords, cursor, viewWidth, offsetVertical);
            var m := GlobalMin(FlipY(coords));
            && |r| == |coords|
            && Min(Xs(r)) - (viewWidth - Max(Xs(r))) == Min(Xs(coords)) - m >= 0.0
            && (Min(Xs(r)) == viewWidth - Max(Xs(r)) <==> Min(Xs(coords)) <= -Max(Ys(coords)))
            && Min(Ys(r)) == offsetVertical - cursor + (-Max(Ys(coords)) - m)
            && Min(Ys(r)) >= offsetVertical - cursor
            && (Min(Ys(r)) == offsetVertical - cursor <==> -Max(Ys(coords)) <= Min(Xs(coords)))
  {
    PlaceLineExtremes(coords, cursor, viewWidth, offsetVertical);
    var r := PlaceLine(coords, cursor, viewWidth, offsetVertical);
    var m := GlobalMin(FlipY(coords));
    var x0, x1, y1 := Min(Xs(coords)), Max(Xs(coords)), Max(Ys(coords));
    var shift := (viewWidth - (x1 - m)) / 2.0;
    assert Min(Xs(r)) - (viewWidth - Max(Xs(r))) == (x0 - m + shift) - (viewWidth - (x1 - m + shift));
  }

  /** The path element for line k. */
  function LineElement(coords: seq<Point>, k: nat, color: string, width: real,
                       viewWidth: real, offsetVertical: real): Element
    requires |coords| > 0
  {
    Path(PathOf(PlaceLine(coords, Cursor(FirstCursor, LineHeight, k), viewWidth, offsetVertical)), color, width)
  }

  /**
   * The top of line k (blank lines counted) lies at least 6 + 8k below the
   * vertical offset, so line k's baseline cursor sits 8 below line k - 1's.
   */
  lemma LineTop(coords: seq<Point>, k: nat, viewWidth: real, offsetVertical: real)
    requires |coords| > 0
    ensures Cursor(FirstCursor, LineHeight, k) == -6.0 - 8.0 * k as real
    ensures Min(Ys(PlaceLine(coords, Cursor(FirstCursor, LineHeight, k), viewWidth, offsetVertical)))
            >= offsetVertical + 6.0 + 8.0 * k as real
  {
    CursorClosedForm(FirstCursor, LineHeight, k);
    PlaceLineGeometry(coords, Cursor(FirstCursor, LineHeight, k), viewWidth, offsetVertical);
  }

  /** es holds line k's path for every k before n whose coordinates are not empty. */
  ghost predicate Placed(es: seq<Element>, cs: seq<seq<Point>>, colors: seq<string>, widths: seq<real>,
                         viewWidth: real, offsetVertical: real, n: nat)
    requires n <= |es| && n <= |cs| && n <= |colors| && n <= |widths|
  {
    forall k {:trigger LineElement(cs[k], k, colors[k], widths[k], viewWidth, offsetVertical)} ::
      0 <= k < n && |cs[k]| > 0 ==> es[k] == LineElement(cs[k], k, colors[k], widths[k], viewWidth, offsetVertical)
  }

  /** The path of every line that has one; a line with empty coordinates gets an empty path, never drawn. */
  function LineElements(cs: seq<seq<Point>>, colors: seq<string>, widths: seq<real>,
                        viewWidth: real, offsetVertical: real, n: nat): (es: seq<Element>)
    requires n <= |cs| && n <= |colors| && n <= |widths|
    ensures |es| == n && Placed(es, cs, colors, widths, viewWidth, offsetVertical, n)
  {
    seq(n, k requires 0 <= k < n =>
             if |cs[k]| > 0 then LineElement(cs[k], k, colors[k], widths[k], viewWidth, offsetVertical)
             else Path([], colors[k], widths[k]))
  }

  /**
   * What the loop adds for its first n lines, stopping at the first empty
   * one: non-blank line k before the stop contributes, as path number
   * NonBlank(lines, k), its own path with its colour and width.
   */
  lemma DrawnLines(cs: seq<seq<Point>>, lines: seq<string>, colors: seq<string>, widths: seq<real>,
                   viewWidth: real, offsetVertical: real, n: nat, k: nat)
    requires n <= |cs| && n <= |lines| && n <= |colors| && n <= |widths|
    ensures var stop := FirstEmpty(cs, lines, 0, n);
            var r := Rendered(LineElements(cs, colors, widths, viewWidth, offsetVertical, n), lines, stop);
            && |r| == NonBlank(lines, stop)
            && (k < stop && lines[k] != "" ==>
                  NonBlank(lines, k) < |r|
                  && r[NonBlank(lines, k)] == LineElement(cs[k], k, colors[k], widths[k], viewWidth, offsetVertical)
                  && r[NonBlank(lines, k)].color == colors[k] && r[NonBlank(lines, k)].width == widths[k])
  {
    var es := LineElements(cs, colors, widths, viewWidth, offsetVertical, n);
    var stop := FirstEmpty(cs, lines, 0, n);
    RenderedLines(es, lines, stop, k);
    if k < stop && lines[k] != "" {
      assert es[k] == LineElement(cs[k], k, colors[k], widths[k], viewWidth, offsetVertical);
    }
  }

  /**
   * The loop body for line i: a blank line changes nothing; any other has
   * the caller's offsets scaled in place, normalized, placed and its path
   * added.  An empty result is numpy's ValueError and adds nothing.
   */
  method DrawLine(strokes: array<seq<Point>>, lines: seq<string>, i: nat, scale: real,
                  normalize: seq<Point> -> seq<Point>, cursor: real, viewWidth: real, offsetVertical: real,
                  colors: seq<string>, widths: seq<real>, canvas: Drawing,
                  ghost offsets: seq<seq<Point>>, ghost scaled: seq<seq<Point>>, ghost cs: seq<seq<Point>>,
                  ghost es: seq<Element>, ghost n: nat)
    returns (ok: bool)
    requires i < n <= strokes.Length && n <= |lines| && n <= |colors| && n <= |widths|
    requires |offsets| == |scaled| == strokes.Length && n <= |cs| && |es| == n
    requires Prepared(offsets, scaled, cs, scale, normalize, n)
    requires Placed(es, cs, colors, widths, viewWidth, offsetVertical, n)
    requires cursor == Cursor(FirstCursor, LineHeight, i)
    requires strokes[..] == ScaledBefore(offsets, scaled, lines, i)
    modifies strokes, canvas`elements
    ensures strokes[..] == ScaledBefore(offsets, scaled, lines, i + 1)
    ensures ok <==> lines[i] == "" || |cs[i]| > 0
    ensures canvas.elements == old(canvas.elements) + if ok && lines[i] != "" then [es[i]] else []
  {
    if lines[i] == "" {
      return true;
    }
    ScaledBeforeAt(offsets, scaled, lines, i, i);
    assert strokes[i] == offsets[i];
    strokes[i] := Scaled(strokes[i], scale);
    assert strokes[i] == Scaled(offsets[i], scale) == scaled[i];
    var coords := normalize(strokes[i]);
    if |coords| == 0 {
      return false;
    }
    var placed := PlaceLine(coords, cursor, viewWidth, offsetVertical);
    var commands := SerializePath(placed);
    assert es[i] == LineElement(cs[i], i, colors[i], widths[i], viewWidth, offsetVertical);
    canvas.Add(Path(commands, colors[i], widths[i]));
    return true;
  }

  /**
   * The loop over the first n lines: every line moves the cursor down 8;
   * a non-blank one has its offsets scaled in place and its path added.
   * The loop stops at the first non-blank line whose coordinates come out
   * empty, after scaling that line's offsets; stop is its index, or n.
   */
  method DrawRows(strokes: array<seq<Point>>, lines: seq<string>, viewWidth: real, offsetVertical: real,
                  scale: real, colors: seq<string>, widths: seq<real>, n: nat,
                  normalize: seq<Point> -> seq<Point>, canvas: Drawing,
                  ghost scaled: seq<seq<Point>>, ghost cs: seq<seq<Point>>, ghost es: seq<Element>)
    returns (stop: nat)
    requires n <= strokes.Length && n <= |lines| && n <= |colors| && n <= |widths|
    requires |scaled| == strokes.Length && n <= |cs| && |es| == n
    requires Prepared(strokes[..], scaled, cs, scale, normalize, n)
    requires Placed(es, cs, colors, widths, viewWidth, offsetVertical, n)
    modifies strokes, canvas`elements
    ensures stop == FirstEmpty(cs, lines, 0, n)
    ensures canvas.elements == old(canvas.elements) + Rendered(es, lines, stop)
    ensures strokes[..] == ScaledBefore(old(strokes[..]), scaled, lines, if stop < n then stop + 1 else n)
  {
    var cursor := FirstCursor;
    ghost var offsets := strokes[..];
    var i := 0;
    while i < n
      invariant 0 <= i <= n
      invariant cursor == Cursor(FirstCursor, LineHeight, i)
      invariant FirstEmpty(cs, lines, 0, n) == FirstEmpty(cs, lines, i, n)
      invariant canvas.elements == RenderedAfter(old(canvas.elements), es, lines, i)
      invariant strokes[..] == ScaledBefore(offsets, scaled, lines, i)
    {
      var ok := DrawLine(strokes, lines, i, scale, normalize, cursor, viewWidth, offsetVertical, colors, widths,
                         canvas, offsets, scaled, cs, es, n);
      if !ok {
        return i;
      }
      cursor := cursor - LineHeight;
      i := i + 1;
    }
    return n;
  }

  /** The loop followed by the save: the sheet is saved only when no line raised. */
  method DrawPage(strokes: array<seq<Point>>, lines: seq<string>, viewWidth: real, offsetVertical: real,
                  scale: real, colors: seq<string>, widths: seq<real>, n: nat,
                  normalize: seq<Point> -> seq<Point>, canvas: Drawing,
                  ghost scaled: seq<seq<Point>>, ghost cs: seq<seq<Point>>, ghost es: seq<Element>)
    returns (err: Option<Error>)
    requires n <= strokes.Length && n <= |lines| && n <= |colors| && n <= |widths|
    requires |scaled| == strokes.Length && n <= |cs| && |es| == n
    requires Prepared(strokes[..], scaled, cs, scale, normalize, n)
    requires Placed(es, cs, colors, widths, viewWidth, offsetVertical, n)
    modifies strokes, canvas`elements, canvas`saved
    ensures var stop := FirstEmpty(cs, lines, 0, n);
            && err == (if stop < n then Some(ValueError(EmptyReduction)) else None)
            && canvas.elements == old(canvas.elements) + Rendered(es, lines, stop)
            && canvas.saved == (old(canvas.saved) || stop == n)
            && strokes[..] == ScaledBefore(old(strokes[..]), scaled, lines, Reached(cs, lines, n))
  {
    var stop := DrawRows(strokes, lines, viewWidth, offsetVertical, scale, colors, widths, n, normalize, canvas,
                         scaled, cs, es);
    if stop < n {
      return Some(ValueError(EmptyReduction));
    }
    canvas.Save();
    return None;
  }

  /**
   * draw: unpacking a missing paper size (get_size's None) is a TypeError
   * before anything is drawn.  Otherwise the ruled sheet is built at the
   * paper size, with the margins and an 8 mm gap; the first zip-length
   * lines follow with colours and widths defaulting to black and 2; the
   * sheet is saved only when no line raised.
   */
  method Draw(strokes: array<seq<Point>>, lines: seq<string>, filename: string,
              offsetHorizontal: real, offsetVertical: real, scale: real, paperSize: Option<(int, int)>,
              strokeColors: seq<string>, strokeWidths: seq<real>, normalize: seq<Point> -> seq<Point>)
    returns (err: Option<Error>, dwg: Drawing?)
    modifies strokes
    ensures paperSize.None? ==> err == Some(TypeError(NotUnpackable)) && dwg == null
                                && strokes[..] == old(strokes[..])
    ensures paperSize.Some? ==>
              var (w, h) := paperSize.value;
              var colors := OrDefault(strokeColors, "black", |lines|);
              var widths := OrDefault(strokeWidths, 2.0, |lines|);
              var n := ZipLength(strokes.Length, |lines|, |colors|, |widths|);
              var cs := Normalized(old(strokes[..]), scale, normalize);
              var stop := FirstEmpty(cs, lines, 0, n);
              && dwg != null && fresh(dwg)
              && dwg.filename == filename && dwg.width == w as real && dwg.height == h as real && dwg.unit == "mm"
              && dwg.viewbox == Some((Px(w as real), Px(h as real)))
              && err == (if stop < n then Some(ValueError(EmptyReduction)) else None)
              && dwg.elements == RuledSheet(w as real, h as real, offsetHorizontal, offsetVertical,
                                            LineHeight, "black", 0.5, "mm")
                                 + Rendered(LineElements(cs, colors, widths, w as real, offsetVertical, n), lines, stop)
              && dwg.saved == (stop == n)
              && strokes[..] == ScaledBefore(old(strokes[..]), ScaledEach(old(strokes[..]), scale), lines,
                                             Reached(cs, lines, n))
  {
    var colors := OrDefault(strokeColors, "black", |lines|);
    var widths := OrDefault(strokeWidths, 2.0, |lines|);
    if paperSize.None? {
      return Some(TypeError(NotUnpackable)), null;
    }
    var (w, h) := paperSize.value;
    DefaultConstants();
    var sheet := CreateSvgWithRuledLines(filename, (w as real, h as real), offsetHorizontal, offsetVertical,
                                         LineHeight, "black", 0.5, "mm");
    dwg := sheet.value;
    var n := ZipLength(strokes.Length, |lines|, |colors|, |widths|);
    ghost var scaled := ScaledEach(strokes[..], scale);
    ghost var cs := Normalized(strokes[..], scale, normalize);
    ghost var es := LineElements(cs, colors, widths, w as real, offsetVertical, n);
    PreparedEach(strokes[..], scale, normalize, n);
    err := DrawPage(strokes, lines, w as real, offsetVertical, scale, colors, widths, n, normalize, dwg,
                    scaled, cs, es);
  }
}
