/**
 * hand/_draw.py: lays the lines of a document out on a Background page and
 * adds one stroked path per non-blank line to the drawing.
 *
 * The drawing is the canvas generator.create_svg_with_lines builds, passed
 * in as `canvas` (that function is not defined in the generator.py shown, so
 * as written the call would raise AttributeError; the model assumes it
 * returns a drawing); the composition
 * of offsets_to_coords, denoise and align is the opaque `normalize`; the
 * randint(0, 6) drawn for each left-aligned line is `jitter`.
 */
module Draw {
  import opened Wrappers
  import opened Errors
  import opened Svg
  import opened Generator
  import opened Layout
  import opened BackgroundConfig

  /** The page quantities _draw derives from its background, in pixels. */
  datatype Page = Page(lineHeight: real, viewWidth: real, padding: real,
                       offsetHorizontal: real, offsetVertical: real)

  /** The page of a background with the given size, line space and margins (millimetres). */
  function PageFor(size: (int, int), lineSpace: int, offsetHorizontal: int, offsetVertical: int): Page
  {
    Page(Px(lineSpace as real) as real, Px(size.0 as real) as real, Px(5.0) as real,
         Px(offsetHorizontal as real) as real, Px(offsetVertical as real) as real)
  }

  function PageOf(b: Background): Page
    reads b
  {
    PageFor(b.GetSize(), b.lineSpace, b.offsetHorizontal, b.offsetVertical)
  }

  /** initial_x: the comment block that once chose it per alignment is dead code. */
  const InitialX: real := 0.0

  /** initial_y before the first line. */
  function FirstCursor(page: Page): real
  {
    -page.lineHeight / 4.0
  }

  /** The line flipped in y and moved so that its smallest x is initial_x and its smallest y is -cursor. */
  function AtCursor(coords: seq<Point>, cursor: real): (t: seq<Point>)
    requires |coords| > 0
    ensures |t| == |coords|
  {
    var f := FlipY(coords);
    Translate(f, -(Min(Xs(f)) + InitialX), -(Min(Ys(f)) + cursor))
  }

  /** The x shift of the alignment branch; any alignment other than left and right is centred. */
  function AlignShift(t: seq<Point>, jitter: int, alignment: string, page: Page): real
    requires |t| > 0
  {
    if alignment == "left" then page.offsetHorizontal + Px(jitter as real) as real + page.padding
    else if alignment == "right" then page.viewWidth - Max(Xs(t)) - page.padding
    else (page.viewWidth - Max(Xs(t))) / 2.0
  }

  /** One non-empty line's coordinates after the flip, the cursor translation, the alignment and the vertical offset. */
  function PlaceLine(coords: seq<Point>, cursor: real, jitter: int, alignment: string, page: Page): seq<Point>
    requires |coords| > 0
  {
    var t := AtCursor(coords, cursor);
    Translate(t, AlignShift(t, jitter, alignment, page), page.offsetVertical)
  }

  lemma AtCursorExtremes(coords: seq<Point>, cursor: real)
    requires |coords| > 0
    ensures Min(Xs(AtCursor(coords, cursor))) == InitialX
    ensures Min(Ys(AtCursor(coords, cursor))) == -cursor
  {
    var f := FlipY(coords);
    TranslateXExtremes(f, -(Min(Xs(f)) + InitialX), -(Min(Ys(f)) + cursor));
    TranslateYExtremes(f, -(Min(Xs(f)) + InitialX), -(Min(Ys(f)) + cursor));
  }

  /** The placed line is the original mirrored in y and moved as one rigid body. */
  lemma PlaceLineRigid(coords: seq<Point>, cursor: real, jitter: int, alignment: string, page: Page)
    requires |coords| > 0
    ensures var r := PlaceLine(coords, cursor, jitter, alignment, page);
            && |r| == |coords|
            && (forall i :: 0 <= i < |r| ==> r[i].eos == coords[i].eos)
            && (forall i, j :: 0 <= i < |r| && 0 <= j < |r| ==>
                  r[i].x - r[j].x == coords[i].x - coords[j].x
                  && r[i].y - r[j].y == coords[j].y - coords[i].y)
  {
    var f := FlipY(coords);
    var dx, dy := -(Min(Xs(f)) + InitialX), -(Min(Ys(f)) + cursor);
    var t := AtCursor(coords, cursor);
    var r := PlaceLine(coords, cursor, jitter, alignment, page);
    var ex, ey := AlignShift(t, jitter, alignment, page), page.offsetVertical;
    assert forall i :: 0 <= i < |r| ==>
             r[i] == Point(coords[i].x + dx + ex, -coords[i].y + dy + ey, coords[i].eos);
  }

  /**
   * Where PlaceLine puts a line: its top at the vertical offset below the
   * cursor, and its left edge (left), its right edge (right) or equal left
   * and right gaps (otherwise) as the alignment asks.
   */
  lemma PlaceLineGeometry(coords: seq<Point>, cursor: real, jitter: int, alignment: string, page: Page)
    requires |coords| > 0
    ensures var r := PlaceLine(coords, cursor, jitter, alignment, page);
            && |r| == |coords|
            && Min(Ys(r)) == page.offsetVertical - cursor
            && (alignment == "left" ==>
                  Min(Xs(r)) == page.offsetHorizontal + Px(jitter as real) as real + page.padding)
            && (alignment == "right" ==> Max(Xs(r)) == page.viewWidth - page.padding)
            && (alignment != "left" && alignment != "right" ==> Min(Xs(r)) == page.viewWidth - Max(Xs(r)))
  {
    var t := AtCursor(coords, cursor);
    AtCursorExtremes(coords, cursor);
    TranslateXExtremes(t, AlignShift(t, jitter, alignment, page), page.offsetVertical);
    TranslateYExtremes(t, AlignShift(t, jitter, alignment, page), page.offsetVertical);
  }

  /** With a 0..6 jitter the left edge lies between the margin plus padding and that plus 6 mm. */
  lemma LeftEdgeBounds(coords: seq<Point>, cursor: real, jitter: int, page: Page)
    requires |coords| > 0 && 0 <= jitter <= 6
    ensures var left := Min(Xs(PlaceLine(coords, cursor, jitter, "left", page)));
            page.offsetHorizontal + page.padding <= left <= page.offsetHorizontal + Px(6.0) as real + page.padding
  {
    PlaceLineGeometry(coords, cursor, jitter, "left", page);
    MmToPxZero(96, "mm");
    MmToPxMonotone(0.0, jitter as real, 96, "mm");
    MmToPxMonotone(jitter as real, 6.0, 96, "mm");
  }

  /** The path element for line k. */
  function LineElement(coords: seq<Point>, k: nat, color: string, width: real, jitter: int,
                       alignment: string, page: Page): Element
    requires |coords| > 0
  {
    Path(PathOf(PlaceLine(coords, Cursor(FirstCursor(page), page.lineHeight, k), jitter, alignment, page)),
         color, width)
  }

  /**
   * es holds line k's path for every k before n whose coordinates are not
   * empty.  The trigger keeps the fact from being unfolded where no
   * particular line's path is in question.
   */
  ghost predicate Placed(es: seq<Element>, cs: seq<seq<Point>>, colors: seq<string>, widths: seq<real>,
                         jitter: seq<int>, alignment: string, page: Page, n: nat)
    requires n <= |es| && n <= |cs| && n <= |colors| && n <= |widths| && n <= |jitter|
  {
    forall k {:trigger LineElement(cs[k], k, colors[k], widths[k], jitter[k], alignment, page)} ::
      0 <= k < n && |cs[k]| > 0 ==> es[k] == LineElement(cs[k], k, colors[k], widths[k], jitter[k], alignment, page)
  }

  /** The path of every line that has one; a line with empty coordinates gets an empty path, never drawn. */
  function LineElements(cs: seq<seq<Point>>, colors: seq<string>, widths: seq<real>, jitter: seq<int>,
                        alignment: string, page: Page, n: nat): (es: seq<Element>)
    requires n <= |cs| && n <= |colors| && n <= |widths| && n <= |jitter|
    ensures |es| == n && Placed(es, cs, colors, widths, jitter, alignment, page, n)
  {
    seq(n, k requires 0 <= k < n =>
             if |cs[k]| > 0 then LineElement(cs[k], k, colors[k], widths[k], jitter[k], alignment, page)
             else Path([], colors[k], widths[k]))
  }

  /**
   * What _draw adds for its first n lines, stopping at the first empty
   * one: non-blank line k before the stop contributes, as element number
   * NonBlank(lines, k), its path with its own colour and width.
   */
  lemma DrawnLines(cs: seq<seq<Point>>, lines: seq<string>, colors: seq<string>, widths: seq<real>,
                   jitter: seq<int>, alignment: string, page: Page, n: nat, k: nat)
    requires n <= |cs| && n <= |lines| && n <= |colors| && n <= |widths| && n <= |jitter|
    ensures var stop := FirstEmpty(cs, lines, 0, n);
            var r := Rendered(LineElements(cs, colors, widths, jitter, alignment, page, n), lines, stop);
            && |r| == NonBlank(lines, stop)
            && (k < stop && lines[k] != "" ==>
                  NonBlank(lines, k) < |r|
                  && r[NonBlank(lines, k)] == LineElement(cs[k], k, colors[k], widths[k], jitter[k], alignment, page)
                  && r[NonBlank(lines, k)].color == colors[k] && r[NonBlank(lines, k)].width == widths[k])
  {
    var es := LineElements(cs, colors, widths, jitter, alignment, page, n);
    var stop := FirstEmpty(cs, lines, 0, n);
    RenderedLines(es, lines, stop, k);
    if k < stop && lines[k] != "" {
      assert es[k] == LineElement(cs[k], k, colors[k], widths[k], jitter[k], alignment, page);
    }
  }

  /**
   * The top of line k (blank lines counted) is a quarter line height plus k
   * line heights below the vertical offset; so tops strictly increase when
   * the line height is positive.
   */
  lemma LineTop(coords: seq<Point>, k: nat, jitter: int, alignment: string, page: Page)
    requires |coords| > 0
    ensures Min(Ys(PlaceLine(coords, Cursor(FirstCursor(page), page.lineHeight, k), jitter, alignment, page)))
            == page.lineHeight / 4.0 + k as real * page.lineHeight + page.offsetVertical
  {
    CursorClosedForm(FirstCursor(page), page.lineHeight, k);
    PlaceLineGeometry(coords, Cursor(FirstCursor(page), page.lineHeight, k), jitter, alignment, page);
  }

  /** With a positive line height a later line starts strictly lower on the page, whatever the two lines hold. */
  lemma LineTopsIncrease(a: seq<Point>, b: seq<Point>, k: nat, l: nat, jitterA: int, jitterB: int,
                         alignment: string, page: Page)
    requires |a| > 0 && |b| > 0 && k < l && page.lineHeight > 0.0
    ensures Min(Ys(PlaceLine(a, Cursor(FirstCursor(page), page.lineHeight, k), jitterA, alignment, page)))
            < Min(Ys(PlaceLine(b, Cursor(FirstCursor(page), page.lineHeight, l), jitterB, alignment, page)))
  {
    var ck, cl := Cursor(FirstCursor(page), page.lineHeight, k), Cursor(FirstCursor(page), page.lineHeight, l);
    assert Min(Ys(PlaceLine(a, ck, jitterA, alignment, page))) == page.offsetVertical - ck by {
      PlaceLineGeometry(a, ck, jitterA, alignment, page);
    }
    assert Min(Ys(PlaceLine(b, cl, jitterB, alignment, page))) == page.offsetVertical - cl by {
      PlaceLineGeometry(b, cl, jitterB, alignment, page);
    }
    CursorDecreases(FirstCursor(page), page.lineHeight, k, l);
  }

  /**
   * The loop body of _draw for line i.  A blank line changes nothing; any
   * other has the caller's offsets scaled in place, normalized, and the
   * placed line's path added.  An empty result is numpy's ValueError and
   * adds nothing.
   */
  method DrawLine(strokes: array<seq<Point>>, lines: seq<string>, i: nat, scale: real,
                  normalize: seq<Point> -> seq<Point>, cursor: real, alignment: string, page: Page,
                  colors: seq<string>, widths: seq<real>, jitter: seq<int>, canvas: Drawing,
                  ghost offsets: seq<seq<Point>>, ghost scaled: seq<seq<Point>>, ghost cs: seq<seq<Point>>,
                  ghost es: seq<Element>, ghost n: nat)
    returns (ok: bool)
    requires i < n <= strokes.Length && n <= |lines| && n <= |colors| && n <= |widths| && n <= |jitter|
    requires |offsets| == |scaled| == strokes.Length && n <= |cs| && |es| == n
    requires Prepared(offsets, scaled, cs, scale, normalize, n)
    requires Placed(es, cs, colors, widths, jitter, alignment, page, n)
    requires cursor == Cursor(FirstCursor(page), page.lineHeight, i)
    requires strokes[..] == ScaledBefore(offsets, scaled, lines, i)
    modifies strokes, canvas`elements
    ensures strokes[..] == ScaledBefore(offsets, scaled, lines, i + 1)
    ensures ok <==> lines[i] == "" || |cs[i]| > 0
    ensures canvas.elements == old(canvas.elements) + if ok && lines[i] != "" then [es[i]] else []
  {
    if lines[i] == "" {
      return true;
    }
    ScaledBeforeAt(offsets, scaled, lines, i, i);
    assert strokes[i] == offsets[i];
    strokes[i] := Scaled(strokes[i], scale);
    assert strokes[i] == Scaled(offsets[i], scale) == scaled[i];
    var coords := normalize(strokes[i]);
    if |coords| == 0 {
      return false;
    }
    var placed := PlaceLine(coords, cursor, jitter[i], alignment, page);
    var commands := SerializePath(placed);
    assert es[i] == LineElement(cs[i], i, colors[i], widths[i], jitter[i], alignment, page);
    canvas.Add(Path(commands, colors[i], widths[i]));
    return true;
  }

  /**
   * The loop of _draw over the first n lines, with es the path each line
   * would get: every line consumes one line height; a non-blank one has its
   * offsets scaled in place and its path added.  The loop stops at the
   * first non-blank line whose coordinates come out empty (numpy's
   * ValueError), after scaling that line's offsets; stop is its index, or n.
   */
  method DrawRows(strokes: array<seq<Point>>, lines: seq<string>, page: Page, alignment: string,
                  scale: real, colors: seq<string>, widths: seq<real>, n: nat,
                  normalize: seq<Point> -> seq<Point>, jitter: seq<int>, canvas: Drawing,
                  ghost scaled: seq<seq<Point>>, ghost cs: seq<seq<Point>>, ghost es: seq<Element>)
    returns (stop: nat)
    requires n <= strokes.Length && n <= |lines| && n <= |colors| && n <= |widths| && n <= |jitter|
    requires |scaled| == strokes.Length && n <= |cs| && |es| == n
    requires Prepared(strokes[..], scaled, cs, scale, normalize, n)
    requires Placed(es, cs, colors, widths, jitter, alignment, page, n)
    modifies strokes, canvas`elements
    ensures stop == FirstEmpty(cs, lines, 0, n)
    ensures canvas.elements == old(canvas.elements) + Rendered(es, lines, stop)
    ensures strokes[..] == ScaledBefore(old(strokes[..]), scaled, lines, if stop < n then stop + 1 else n)
  {
    var initialY := FirstCursor(page);
    ghost var offsets := strokes[..];
    var i := 0;
    while i < n
      invariant 0 <= i <= n
      invariant initialY == Cursor(FirstCursor(page), page.lineHeight, i)
      invariant FirstEmpty(cs, lines, 0, n) == FirstEmpty(cs, lines, i, n)
      invariant canvas.elements == RenderedAfter(old(canvas.elements), es, lines, i)
      invariant strokes[..] == ScaledBefore(offsets, scaled, lines, i)
    {
      var ok := DrawLine(strokes, lines, i, scale, normalize, initialY, alignment, page, colors, widths, jitter,
                         canvas, offsets, scaled, cs, es, n);
      if !ok {
        return i;
      }
      initialY := initialY - page.lineHeight;
      i := i + 1;
    }
    return n;
  }

  /**
   * The loop of _draw followed by the save: the drawing is saved only when
   * no line raised.
   */
  method DrawPage(strokes: array<seq<Point>>, lines: seq<string>, page: Page, alignment: string,
                  scale: real, colors: seq<string>, widths: seq<real>, n: nat,
                  normalize: seq<Point> -> seq<Point>, jitter: seq<int>, canvas: Drawing,
                  ghost scaled: seq<seq<Point>>, ghost cs: seq<seq<Point>>, ghost es: seq<Element>)
    returns (err: Option<Error>)
    requires n <= strokes.Length && n <= |lines| && n <= |colors| && n <= |widths| && n <= |jitter|
    requires |scaled| == strokes.Length && n <= |cs| && |es| == n
    requires Prepared(strokes[..], scaled, cs, scale, normalize, n)
    requires Placed(es, cs, colors, widths, jitter, alignment, page, n)
    modifies strokes, canvas`elements, canvas`saved
    ensures var stop := FirstEmpty(cs, lines, 0, n);
            && err == (if stop < n then Some(ValueError(EmptyReduction)) else None)
            && canvas.elements == old(canvas.elements) + Rendered(es, lines, stop)
            && canvas.saved == (old(canvas.saved) || stop == n)
            && strokes[..] == ScaledBefore(old(strokes[..]), scaled, lines, Reached(cs, lines, n))
  {
    var stop := DrawRows(strokes, lines, page, alignment, scale, colors, widths, n, normalize, jitter, canvas,
                         scaled, cs, es);
    if stop < n {
      return Some(ValueError(EmptyReduction));
    }
    canvas.Save();
    return None;
  }

  /**
   * _draw: the page quantities come from the background in millimetres,
   * missing colours and widths default to black and 2, and the lines drawn
   * are the first zip-length ones.
   */
  method DrawLines(strokes: array<seq<Point>>, lines: seq<string>, background: Background,
                   alignment: string, scale: real, strokeColors: seq<string>, strokeWidths: seq<real>,
                   normalize: seq<Point> -> seq<Point>, jitter: seq<int>, canvas: Drawing)
    returns (err: Option<Error>)
    requires |jitter| >= |lines| && forall k :: 0 <= k < |jitter| ==> 0 <= jitter[k] <= 6
    modifies strokes, canvas`elements, canvas`saved
    ensures var colors := OrDefault(strokeColors, "black", |lines|);
            var widths := OrDefault(strokeWidths, 2.0, |lines|);
            var n := ZipLength(strokes.Length, |lines|, |colors|, |widths|);
            var cs := Normalized(old(strokes[..]), scale, normalize);
            var stop := FirstEmpty(cs, lines, 0, n);
            && err == (if stop < n then Some(ValueError(EmptyReduction)) else None)
            && canvas.elements == old(canvas.elements)
                                  + Rendered(LineElements(cs, colors, widths, jitter, alignment, PageOf(background), n),
                                             lines, stop)
            && canvas.saved == (old(canvas.saved) || stop == n)
            && strokes[..] == ScaledBefore(old(strokes[..]), ScaledEach(old(strokes[..]), scale), lines,
                                           Reached(cs, lines, n))
  {
    var colors := OrDefault(strokeColors, "black", |lines|);
    var widths := OrDefault(strokeWidths, 2.0, |lines|);
    var n := ZipLength(strokes.Length, |lines|, |colors|, |widths|);
    var page := PageOf(background);
    ghost var scaled := ScaledEach(strokes[..], scale);
    ghost var cs := Normalized(strokes[..], scale, normalize);
    ghost var es := LineElements(cs, colors, widths, jitter, alignment, page, n);
    PreparedEach(strokes[..], scale, normalize, n);
    err := DrawPage(strokes, lines, page, alignment, scale, colors, widths, n, normalize, jitter, canvas,
                    scaled, cs, es);
  }
}
