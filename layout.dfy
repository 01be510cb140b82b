/**
 * What the two line renderers (hand/_draw.py and hand/_draw_enhanced.py)
 * share: a stroke point, the numpy column operations they apply to a
 * line's points, the running line cursor and the pen-state path walk.
 */
module Layout {
  import opened Svg

  /** One row of a stroke array: x, y and the end-of-stroke flag. Offsets and coordinates share it. */
  datatype Point = Point(x: real, y: real, eos: real)

  /** Column 0 of a stroke array. */
  function Xs(s: seq<Point>): (r: seq<real>)
    ensures |r| == |s| && forall i :: 0 <= i < |s| ==> r[i] == s[i].x
  {
    seq(|s|, i requires 0 <= i < |s| => s[i].x)
  }

  /** Column 1 of a stroke array. */
  function Ys(s: seq<Point>): (r: seq<real>)
    ensures |r| == |s| && forall i :: 0 <= i < |s| ==> r[i] == s[i].y
  {
    seq(|s|, i requires 0 <= i < |s| => s[i].y)
  }

  /** numpy's min over a non-empty column: a lower bound (attained, by MinAttained). */
  function Min(xs: seq<real>): (m: real)
    requires |xs| > 0
    ensures forall i :: 0 <= i < |xs| ==> m <= xs[i]
  {
    if |xs| == 1 then xs[0]
    else
      var rest := Min(xs[1..]);
      assert forall i :: 1 <= i < |xs| ==> xs[1..][i - 1] == xs[i];
      if xs[0] <= rest then xs[0] else rest
  }

  /** numpy's max over a non-empty column: an upper bound (attained, by MaxAttained). */
  function Max(xs: seq<real>): (m: real)
    requires |xs| > 0
    ensures forall i :: 0 <= i < |xs| ==> xs[i] <= m
  {
    if |xs| == 1 then xs[0]
    else
      var rest := Max(xs[1..]);
      assert forall i :: 1 <= i < |xs| ==> xs[1..][i - 1] == xs[i];
      if xs[0] >= rest then xs[0] else rest
  }

  lemma {:induction false} MinAttained(xs: seq<real>) returns (w: nat)
    requires |xs| > 0
    ensures w < |xs| && xs[w] == Min(xs)
  {
    if |xs| == 1 {
      w := 0;
    } else {
      var v := MinAttained(xs[1..]);
      w := if xs[0] <= Min(xs[1..]) then 0 else v + 1;
    }
  }

  lemma {:induction false} MaxAttained(xs: seq<real>) returns (w: nat)
    requires |xs| > 0
    ensures w < |xs| && xs[w] == Max(xs)
  {
    if |xs| == 1 {
      w := 0;
    } else {
      var v := MaxAttained(xs[1..]);
      w := if xs[0] >= Max(xs[1..]) then 0 else v + 1;
    }
  }

  lemma MinIs(xs: seq<real>, m: real, w: nat)
    requires w < |xs| && xs[w] == m
    requires forall i :: 0 <= i < |xs| ==> m <= xs[i]
    ensures Min(xs) == m
  {
    var v := MinAttained(xs);
  }

  lemma MaxIs(xs: seq<real>, m: real, w: nat)
    requires w < |xs| && xs[w] == m
    requires forall i :: 0 <= i < |xs| ==> xs[i] <= m
    ensures Max(xs) == m
  {
    var v := MaxAttained(xs);
  }

  /** offsets[:, :2] *= factor */
  function Scaled(s: seq<Point>, factor: real): (r: seq<Point>)
    ensures |r| == |s|
  {
    seq(|s|, i requires 0 <= i < |s| => Point(s[i].x * factor, s[i].y * factor, s[i].eos))
  }

  /** strokes[:, 1] *= -1 */
  function FlipY(s: seq<Point>): (r: seq<Point>)
    ensures |r| == |s|
  {
    seq(|s|, i requires 0 <= i < |s| => Point(s[i].x, -s[i].y, s[i].eos))
  }

  /** strokes[:, 0] += dx together with strokes[:, 1] += dy */
  function Translate(s: seq<Point>, dx: real, dy: real): (r: seq<Point>)
    ensures |r| == |s|
  {
    seq(|s|, i requires 0 <= i < |s| => Point(s[i].x + dx, s[i].y + dy, s[i].eos))
  }

  /** A translation moves both extremes of column 0 by dx. */
  lemma TranslateXExtremes(s: seq<Point>, dx: real, dy: real)
    requires |s| > 0
    ensures Min(Xs(Translate(s, dx, dy))) == Min(Xs(s)) + dx
    ensures Max(Xs(Translate(s, dx, dy))) == Max(Xs(s)) + dx
  {
    var t := Translate(s, dx, dy);
    var a := MinAttained(Xs(s));
    MinIs(Xs(t), Min(Xs(s)) + dx, a);
    var b := MaxAttained(Xs(s));
    MaxIs(Xs(t), Max(Xs(s)) + dx, b);
  }

  /** A translation moves both extremes of column 1 by dy. */
  lemma TranslateYExtremes(s: seq<Point>, dx: real, dy: real)
    requires |s| > 0
    ensures Min(Ys(Translate(s, dx, dy))) == Min(Ys(s)) + dy
    ensures Max(Ys(Translate(s, dx, dy))) == Max(Ys(s)) + dy
  {
    var t := Translate(s, dx, dy);
    var c := MinAttained(Ys(s));
    MinIs(Ys(t), Min(Ys(s)) + dy, c);
    var d := MaxAttained(Ys(s));
    MaxIs(Ys(t), Max(Ys(s)) + dy, d);
  }

  /** Negating y leaves column 0 alone and turns the largest y into the smallest. */
  lemma FlipExtremes(s: seq<Point>)
    requires |s| > 0
    ensures Xs(FlipY(s)) == Xs(s)
    ensures Min(Ys(FlipY(s))) == -Max(Ys(s)) && Max(Ys(FlipY(s))) == -Min(Ys(s))
  {
    var f := FlipY(s);
    var b := MaxAttained(Ys(s));
    MinIs(Ys(f), -Max(Ys(s)), b);
    var a := MinAttained(Ys(s));
    MaxIs(Ys(f), -Min(Ys(s)), a);
  }

  /** The path command for point p: a move when the previous point ended a stroke, a line otherwise. */
  function StepCommand(prevEos: real, p: Point): Command
  {
    if prevEos == 1.0 then MoveTo(p.x, p.y) else LineTo(p.x, p.y)
  }

  /** The pen-state walk: one command per point, carrying the previous point's eos. */
  function Walk(pts: seq<Point>, prevEos: real): seq<Command>
    decreases |pts|
  {
    if pts == [] then [] else [StepCommand(prevEos, pts[0])] + Walk(pts[1..], pts[0].eos)
  }

  /** The command list of a line's path: "M0,0" and then the walk, starting as if after a pen lift. */
  function PathOf(pts: seq<Point>): seq<Command>
  {
    [MoveTo(0.0, 0.0)] + Walk(pts, 1.0)
  }

  lemma {:induction false} WalkAt(pts: seq<Point>, prevEos: real, k: nat)
    ensures |Walk(pts, prevEos)| == |pts|
    ensures k < |pts| ==>
              Walk(pts, prevEos)[k] == StepCommand(if k == 0 then prevEos else pts[k - 1].eos, pts[k])
    decreases |pts|
  {
    if pts != [] {
      WalkAt(pts[1..], pts[0].eos, if k == 0 then 0 else k - 1);
    }
  }

  /**
   * The command rule: the path opens with M0,0; point k gets a command at its
   * own coordinates, and that command is a move exactly when k is the first
   * point or point k - 1 has eos == 1.0.
   */
  lemma PathRule(pts: seq<Point>, k: nat)
    ensures |PathOf(pts)| == |pts| + 1 && PathOf(pts)[0] == MoveTo(0.0, 0.0)
    ensures k < |pts| ==>
              && PathOf(pts)[k + 1].x == pts[k].x && PathOf(pts)[k + 1].y == pts[k].y
              && (PathOf(pts)[k + 1].MoveTo? <==> (k == 0 || pts[k - 1].eos == 1.0))
  {
    WalkAt(pts, 1.0, k);
  }

  /** The path-building loop of both renderers, with its running prev_eos. */
  method SerializePath(pts: seq<Point>) returns (cmds: seq<Command>)
    ensures cmds == PathOf(pts)
  {
    var prevEos := 1.0;
    cmds := [MoveTo(0.0, 0.0)];
    var i := 0;
    while i < |pts|
      invariant 0 <= i <= |pts|
      invariant prevEos == if i == 0 then 1.0 else pts[i - 1].eos
      invariant cmds + Walk(pts[i..], prevEos) == PathOf(pts)
    {
      assert pts[i..][1..] == pts[i + 1..];
      cmds := cmds + [StepCommand(prevEos, pts[i])];
      prevEos := pts[i].eos;
      i := i + 1;
    }
  }

  /** The vertical cursor: starts at first and drops by one line height per line. */
  function Cursor(first: real, lineHeight: real, k: nat): real
  {
    if k == 0 then first else Cursor(first, lineHeight, k - 1) - lineHeight
  }

  lemma {:induction false} CursorClosedForm(first: real, lineHeight: real, k: nat)
    ensures Cursor(first, lineHeight, k) == first - k as real * lineHeight
  {
    if k > 0 {
      CursorClosedForm(first, lineHeight, k - 1);
      assert (k - 1) as real * lineHeight + lineHeight == k as real * lineHeight;
    }
  }

  /** With a positive line height the cursor strictly decreases from line to line. */
  lemma {:induction false} CursorDecreases(first: real, lineHeight: real, k: nat, l: nat)
    requires k < l && lineHeight > 0.0
    ensures Cursor(first, lineHeight, l) < Cursor(first, lineHeight, k)
    decreases l
  {
    if k < l - 1 {
      CursorDecreases(first, lineHeight, k, l - 1);
    }
  }

  /** `given or [default] * n`: an empty (or absent) list falls back to n copies of the default. */
  function OrDefault<T>(given: seq<T>, default: T, n: nat): (r: seq<T>)
    ensures |given| > 0 ==> r == given
    ensures |given| == 0 ==> |r| == n && forall k :: 0 <= k < n ==> r[k] == default
  {
    if |given| == 0 then seq(n, _ => default) else given
  }

  /** How many rows zip(a, b, c, d) yields. */
  function ZipLength(a: nat, b: nat, c: nat, d: nat): (n: nat)
    ensures n <= a && n <= b && n <= c && n <= d
    ensures n == a || n == b || n == c || n == d
  {
    var ab := if a <= b then a else b;
    var cd := if c <= d then c else d;
    if ab <= cd then ab else cd
  }

  /**
   * The index of the first non-blank line, from `from` on and before n,
   * whose coordinates are empty (numpy's min then raises), or n if none is.
   */
  function FirstEmpty(cs: seq<seq<Point>>, lines: seq<string>, from: nat, n: nat): (r: nat)
    requires from <= n <= |cs| && n <= |lines|
    ensures from <= r <= n
    ensures forall k :: from <= k < r ==> lines[k] == "" || |cs[k]| > 0
    ensures r < n ==> lines[r] != "" && |cs[r]| == 0
    decreases n - from
  {
    if from == n then n
    else if lines[from] != "" && |cs[from]| == 0 then from
    else FirstEmpty(cs, lines, from + 1, n)
  }

  /** How many of the first n lines the loop reaches: through the first empty one, or all n. */
  function Reached(cs: seq<seq<Point>>, lines: seq<string>, n: nat): (r: nat)
    requires n <= |cs| && n <= |lines|
    ensures r <= n
  {
    var stop := FirstEmpty(cs, lines, 0, n);
    if stop < n then stop + 1 else n
  }

  /** The number of non-blank lines among the first n. */
  function NonBlank(lines: seq<string>, n: nat): nat
    requires n <= |lines|
  {
    if n == 0 then 0 else NonBlank(lines, n - 1) + (if lines[n - 1] == "" then 0 else 1)
  }

  /** Every line's offsets scaled. */
  function ScaledEach(offsets: seq<seq<Point>>, scale: real): (r: seq<seq<Point>>)
    ensures |r| == |offsets| && forall k :: 0 <= k < |offsets| ==> r[k] == Scaled(offsets[k], scale)
  {
    seq(|offsets|, k requires 0 <= k < |offsets| => Scaled(offsets[k], scale))
  }

  /** What each line looks like after its offsets are scaled and normalized. */
  function Normalized(offsets: seq<seq<Point>>, scale: real, normalize: seq<Point> -> seq<Point>): (r: seq<seq<Point>>)
    ensures |r| == |offsets| && forall k :: 0 <= k < |offsets| ==> r[k] == normalize(Scaled(offsets[k], scale))
  {
    seq(|offsets|, k requires 0 <= k < |offsets| => normalize(Scaled(offsets[k], scale)))
  }

  /** The elements the loop adds for the first n lines: a blank line adds nothing, a non-blank one its path. */
  function Rendered(es: seq<Element>, lines: seq<string>, n: nat): (r: seq<Element>)
    requires n <= |es| && n <= |lines|
    ensures |r| == NonBlank(lines, n)
  {
    if n == 0 then []
    else Rendered(es, lines, n - 1) + (if lines[n - 1] == "" then [] else [es[n - 1]])
  }

  /** base followed by Rendered, built one line at a time as the loop builds it. */
  function RenderedAfter(base: seq<Element>, es: seq<Element>, lines: seq<string>, n: nat): (r: seq<Element>)
    requires n <= |es| && n <= |lines|
    ensures r == base + Rendered(es, lines, n)
  {
    if n == 0 then base
    else RenderedAfter(base, es, lines, n - 1) + (if lines[n - 1] == "" then [] else [es[n - 1]])
  }

  /**
   * One path per non-blank line, in order: the path of non-blank line k is
   * element number NonBlank(lines, k).
   */
  lemma {:induction false} RenderedLines(es: seq<Element>, lines: seq<string>, n: nat, k: nat)
    requires n <= |es| && n <= |lines|
    ensures k < n && lines[k] != "" ==>
              NonBlank(lines, k) < NonBlank(lines, n) && Rendered(es, lines, n)[NonBlank(lines, k)] == es[k]
  {
    if n > 0 {
      RenderedLines(es, lines, n - 1, k);
      if k < n - 1 && lines[k] != "" {
        NonBlankMonotone(lines, k + 1, n - 1);
      }
    }
  }

  lemma {:induction false} NonBlankMonotone(lines: seq<string>, a: nat, b: nat)
    requires a <= b <= |lines|
    ensures NonBlank(lines, a) <= NonBlank(lines, b)
    decreases b - a
  {
    if a < b {
      NonBlankMonotone(lines, a, b - 1);
    }
  }

  /**
   * What each line's offsets become: line k's offsets scaled are scaled[k]
   * and normalize turns them into cs[k].  The trigger keeps the fact (and
   * the body of Scaled) out of the proof until one line's scaling is in
   * question.
   */
  ghost predicate Prepared(offsets: seq<seq<Point>>, scaled: seq<seq<Point>>, cs: seq<seq<Point>>, scale: real,
                           normalize: seq<Point> -> seq<Point>, n: nat)
    requires n <= |offsets| && n <= |scaled| && n <= |cs|
  {
    forall k {:trigger Scaled(offsets[k], scale)} :: 0 <= k < n ==>
      scaled[k] == Scaled(offsets[k], scale) && cs[k] == normalize(scaled[k])
  }

  /** Every line's scaled offsets and normalized coordinates are as Prepared requires. */
  lemma PreparedEach(offsets: seq<seq<Point>>, scale: real, normalize: seq<Point> -> seq<Point>, n: nat)
    requires n <= |offsets|
    ensures Prepared(offsets, ScaledEach(offsets, scale), Normalized(offsets, scale, normalize), scale, normalize, n)
  {
  }

  /**
   * The caller's offsets once the loop has passed line i: those of the
   * non-blank lines before it are replaced by their scaled versions.
   */
  function ScaledBefore(offsets: seq<seq<Point>>, scaled: seq<seq<Point>>, lines: seq<string>, i: nat)
    : (r: seq<seq<Point>>)
    requires i <= |lines| && i <= |offsets| == |scaled|
    ensures |r| == |offsets|
  {
    if i == 0 then offsets
    else if lines[i - 1] == "" then ScaledBefore(offsets, scaled, lines, i - 1)
    else ScaledBefore(offsets, scaled, lines, i - 1)[i - 1 := scaled[i - 1]]
  }

  /** Line k's offsets once the loop has passed line i: scaled if and only if k is a non-blank line before i. */
  lemma {:induction false} ScaledBeforeAt(offsets: seq<seq<Point>>, scaled: seq<seq<Point>>, lines: seq<string>,
                                          i: nat, k: nat)
    requires i <= |lines| && i <= |offsets| == |scaled| && k < |offsets|
    ensures ScaledBefore(offsets, scaled, lines, i)[k] == if k < i && lines[k] != "" then scaled[k] else offsets[k]
  {
    if i > 0 {
      ScaledBeforeAt(offsets, scaled, lines, i - 1, k);
    }
  }
}
