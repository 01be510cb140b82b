/**
 * hand/Hand.py: the request front end.  write and strokes validate the
 * alignment and every line, _sample prepares the network's inputs and
 * strips all-zero rows from what it returns, and write hands the samples
 * to _draw.
 *
 * The recurrent network (its construction, restore and session.run) is the
 * opaque `network`; encode_ascii and the style files are the functions of
 * an `Encoder`, and a request carries the rows they fill, which must fit
 * the fixed 120-code and 1200-point array rows.  drawing.MAX_CHAR_LEN and drawing.alphabet are the
 * parameters `maxCharLen` and `alphabet`.
 */
module Hand {
  import opened Wrappers
  import opened Errors
  import opened Svg
  import opened Layout
  import opened PageSizes
  import opened BackgroundConfig
  import opened Draw

  /** The alignments write and strokes accept. */
  predicate ValidAlignment(alignment: string)
  {
    alignment == "left" || alignment == "center" || alignment == "right"
  }

  /** A line passes validation: short enough and drawn from the alphabet only. */
  predicate LineValid(line: string, maxCharLen: nat, alphabet: set<char>)
  {
    |line| <= maxCharLen && forall j :: 0 <= j < |line| ==> line[j] in alphabet
  }

  /** The error for the first character of line, from index `from` on, that is not in the alphabet. */
  function CharError(line: string, lineNum: nat, alphabet: set<char>, from: nat): (r: Option<Error>)
    requires from <= |line|
    ensures r.None? <==> forall j :: from <= j < |line| ==> line[j] in alphabet
    ensures r.Some? ==> r.value.ValueError?
    decreases |line| - from
  {
    if from == |line| then None
    else if line[from] !in alphabet then Some(ValueError(InvalidCharacter(line[from], lineNum)))
    else CharError(line, lineNum, alphabet, from + 1)
  }

  /** The character CharError reports is the first one outside the alphabet. */
  lemma {:induction false} CharErrorIs(line: string, lineNum: nat, alphabet: set<char>, from: nat)
    returns (j: nat)
    requires from <= |line|
    ensures CharError(line, lineNum, alphabet, from).Some? ==>
              && from <= j < |line| && line[j] !in alphabet
              && (forall i :: from <= i < j ==> line[i] in alphabet)
              && CharError(line, lineNum, alphabet, from) == Some(ValueError(InvalidCharacter(line[j], lineNum)))
    decreases |line| - from
  {
    if from == |line| || line[from] !in alphabet {
      j := from;
    } else {
      j := CharErrorIs(line, lineNum, alphabet, from + 1);
    }
  }

  /** The check of one line: its length first, then its characters in order. */
  function LineError(line: string, lineNum: nat, maxCharLen: nat, alphabet: set<char>): (r: Option<Error>)
    ensures r.None? <==> LineValid(line, maxCharLen, alphabet)
    ensures |line| > maxCharLen ==> r == Some(ValueError(LineTooLong(lineNum, |line|)))
    ensures r.Some? ==> r.value.ValueError?
  {
    if |line| > maxCharLen then Some(ValueError(LineTooLong(lineNum, |line|)))
    else CharError(line, lineNum, alphabet, 0)
  }

  /** The error of the first invalid line from index `from` on, numbered as enumerate numbers it. */
  function LinesError(lines: seq<string>, from: nat, maxCharLen: nat, alphabet: set<char>): (r: Option<Error>)
    requires from <= |lines|
    ensures r.None? <==> forall k :: from <= k < |lines| ==> LineValid(lines[k], maxCharLen, alphabet)
    ensures r.Some? ==> r.value.ValueError?
    decreases |lines| - from
  {
    if from == |lines| then None
    else
      var e := LineError(lines[from], from, maxCharLen, alphabet);
      if e.Some? then e else LinesError(lines, from + 1, maxCharLen, alphabet)
  }

  /** The line LinesError reports is the first invalid one, and the error is that line's own. */
  lemma {:induction false} LinesErrorIs(lines: seq<string>, from: nat, maxCharLen: nat, alphabet: set<char>)
    returns (k: nat)
    requires from <= |lines|
    ensures LinesError(lines, from, maxCharLen, alphabet).Some? ==>
              && from <= k < |lines| && !LineValid(lines[k], maxCharLen, alphabet)
              && (forall i :: from <= i < k ==> LineValid(lines[i], maxCharLen, alphabet))
              && LinesError(lines, from, maxCharLen, alphabet) == LineError(lines[k], k, maxCharLen, alphabet)
    decreases |lines| - from
  {
    if from == |lines| || LineError(lines[from], from, maxCharLen, alphabet).Some? {
      k := from;
    } else {
      k := LinesErrorIs(lines, from + 1, maxCharLen, alphabet);
    }
  }

  /** The validation of write and strokes: the alignment before any line. */
  function RequestError(lines: seq<string>, alignment: string, maxCharLen: nat, alphabet: set<char>)
    : (r: Option<Error>)
    ensures !ValidAlignment(alignment) ==> r == Some(ValueError(InvalidAlignment))
    ensures r.None? <==> ValidAlignment(alignment)
                         && forall k :: 0 <= k < |lines| ==> LineValid(lines[k], maxCharLen, alphabet)
    ensures r.Some? ==> r.value.ValueError?
  {
    if !ValidAlignment(alignment) then Some(ValueError(InvalidAlignment))
    else LinesError(lines, 0, maxCharLen, alphabet)
  }

  /**
   * The error names the first invalid line and what is wrong with it: its
   * length when it is too long, otherwise the first character outside the
   * alphabet.
   */
  lemma RequestErrorNames(lines: seq<string>, alignment: string, maxCharLen: nat, alphabet: set<char>)
    returns (k: nat, j: nat)
    requires ValidAlignment(alignment) && RequestError(lines, alignment, maxCharLen, alphabet).Some?
    ensures k < |lines| && forall i :: 0 <= i < k ==> LineValid(lines[i], maxCharLen, alphabet)
    ensures |lines[k]| > maxCharLen ==>
              RequestError(lines, alignment, maxCharLen, alphabet) == Some(ValueError(LineTooLong(k, |lines[k]|)))
    ensures |lines[k]| <= maxCharLen ==>
              && j < |lines[k]| && lines[k][j] !in alphabet
              && (forall i :: 0 <= i < j ==> lines[k][i] in alphabet)
              && RequestError(lines, alignment, maxCharLen, alphabet)
                 == Some(ValueError(InvalidCharacter(lines[k][j], k)))
  {
    k := LinesErrorIs(lines, 0, maxCharLen, alphabet);
    j := CharErrorIs(lines[k], k, alphabet, 0);
  }

  /** The validation block as written: the alignment test, then nested loops that raise at the first fault. */
  method ValidateRequest(lines: seq<string>, alignment: string, maxCharLen: nat, alphabet: set<char>)
    returns (err: Option<Error>)
    ensures err == RequestError(lines, alignment, maxCharLen, alphabet)
  {
    if !ValidAlignment(alignment) {
      return Some(ValueError(InvalidAlignment));
    }
    var lineNum := 0;
    while lineNum < |lines|
      invariant 0 <= lineNum <= |lines|
      invariant LinesError(lines, 0, maxCharLen, alphabet) == LinesError(lines, lineNum, maxCharLen, alphabet)
    {
      var line := lines[lineNum];
      if |line| > maxCharLen {
        return Some(ValueError(LineTooLong(lineNum, |line|)));
      }
      var j := 0;
      while j < |line|
        invariant 0 <= j <= |line|
        invariant CharError(line, lineNum, alphabet, 0) == CharError(line, lineNum, alphabet, j)
      {
        if line[j] !in alphabet {
          return Some(ValueError(InvalidCharacter(line[j], lineNum)));
        }
        j := j + 1;
      }
      lineNum := lineNum + 1;
    }
    return None;
  }

  /** max([len(i) for i in lines]) on a non-empty list: a bound on every line's length. */
  function LongestLine(lines: seq<string>): (m: nat)
    requires |lines| > 0
    ensures forall k :: 0 <= k < |lines| ==> |lines[k]| <= m
  {
    if |lines| == 1 then |lines[0]|
    else
      var rest := LongestLine(lines[1..]);
      assert forall k :: 1 <= k < |lines| ==> lines[1..][k - 1] == lines[k];
      if |lines[0]| >= rest then |lines[0]| else rest
  }

  lemma {:induction false} LongestLineAttained(lines: seq<string>) returns (w: nat)
    requires |lines| > 0
    ensures w < |lines| && |lines[w]| == LongestLine(lines)
  {
    if |lines| == 1 {
      w := 0;
    } else {
      var v := LongestLineAttained(lines[1..]);
      w := if |lines[0]| >= LongestLine(lines[1..]) then 0 else v + 1;
    }
  }

  /** The fixed row sizes of _sample's input arrays: 120 character codes and 1200 priming points per line. */
  const CharColumns: nat := 120
  const PrimeRows: nat := 1200

  /**
   * encode_ascii and the two files of each style (its priming strokes and
   * its text): collaborators outside this model, taken as they are.
   */
  datatype Encoder = Encoder(encode: string -> seq<int>, styleText: string -> string,
                             styleStrokes: string -> seq<Point>)

  /**
   * What the filling loop writes into row i of chars: the line encoded on
   * its own, or after its style's text and a space.  A line past the end of
   * the styles gets no row from zip, so its row stays all zero (empty here).
   */
  function CharRow(lines: seq<string>, styles: Option<seq<string>>, enc: Encoder, i: nat): seq<int>
    requires i < |lines|
  {
    if styles.None? then enc.encode(lines[i])
    else if i < |styles.value| then enc.encode(enc.styleText(styles.value[i]) + " " + lines[i])
    else []
  }

  /** What the filling loop writes into row i of x_prime: the style's priming strokes, if line i has a style. */
  function PrimeRow(lines: seq<string>, styles: Option<seq<string>>, enc: Encoder, i: nat): seq<Point>
    requires i < |lines|
  {
    if styles.Some? && i < |styles.value| then enc.styleStrokes(styles.value[i]) else []
  }

  /** Every row the loop writes fits its array row; a longer one makes numpy's slice assignment raise. */
  predicate RowsFit(lines: seq<string>, styles: Option<seq<string>>, enc: Encoder)
  {
    forall i :: 0 <= i < |lines| ==>
      |CharRow(lines, styles, enc, i)| <= CharColumns && |PrimeRow(lines, styles, enc, i)| <= PrimeRows
  }

  /** What _sample feeds the network; the padding of chars and x_prime to their fixed sizes is left implicit. */
  datatype SampleRequest = SampleRequest(lines: seq<string>, styles: Option<seq<string>>, prime: bool,
                                         numSamples: nat, sampleTsteps: nat, biases: seq<real>,
                                         chars: seq<seq<int>>, primeStrokes: seq<seq<Point>>)

  /**
   * The inputs _sample prepares: 40 time steps per character of the
   * longest line, a 0.5 bias per line unless biases are given (an empty
   * list counts as given), priming exactly when styles are given, and each
   * line's character and priming rows.  An empty list of lines makes max
   * raise; a row longer than its array row makes the fill raise.
   */
  function PrepareSample(lines: seq<string>, biases: Option<seq<real>>, styles: Option<seq<string>>, enc: Encoder)
    : (r: Result<SampleRequest, Error>)
    ensures r.Failure? <==> |lines| == 0 || !RowsFit(lines, styles, enc)
    ensures |lines| == 0 ==> r == Failure(ValueError(EmptyMax))
    ensures |lines| > 0 && r.Failure? ==> r.error == ValueError(BroadcastMismatch)
    ensures r.Success? ==> && r.value.lines == lines && r.value.styles == styles
                           && r.value.prime == styles.Some? && r.value.numSamples == |lines|
                           && (forall k :: 0 <= k < |lines| ==> 40 * |lines[k]| <= r.value.sampleTsteps)
                           && r.value.sampleTsteps % 40 == 0
    ensures r.Success? && biases.Some? ==> r.value.biases == biases.value
    ensures r.Success? && biases.None? ==>
              |r.value.biases| == |lines| && forall k :: 0 <= k < |lines| ==> r.value.biases[k] == 0.5
    ensures r.Success? ==>
              && |r.value.chars| == |lines| && |r.value.primeStrokes| == |lines|
              && forall k :: 0 <= k < |lines| ==>
                   && r.value.chars[k] == CharRow(lines, styles, enc, k) && |r.value.chars[k]| <= CharColumns
                   && r.value.primeStrokes[k] == PrimeRow(lines, styles, enc, k)
                   && |r.value.primeStrokes[k]| <= PrimeRows
  {
    if |lines| == 0 then Failure(ValueError(EmptyMax))
    else if !RowsFit(lines, styles, enc) then Failure(ValueError(BroadcastMismatch))
    else
      var tsteps := 40 * LongestLine(lines);
      var b := if biases.Some? then biases.value else seq(|lines|, _ => 0.5);
      var chars := seq(|lines|, k requires 0 <= k < |lines| => CharRow(lines, styles, enc, k));
      var prime := seq(|lines|, k requires 0 <= k < |lines| => PrimeRow(lines, styles, enc, k));
      Success(SampleRequest(lines, styles, styles.Some?, |lines|, tsteps, b, chars, prime))
  }

  /**
   * One over-long row is enough: an encoded line (with its style's text)
   * longer than 120 codes, or a style with more than 1200 priming points,
   * makes _sample raise whatever the other lines hold.
   */
  lemma OverlongRowRaises(lines: seq<string>, biases: Option<seq<real>>, styles: Option<seq<string>>,
                          enc: Encoder, k: nat)
    requires k < |lines|
    requires |CharRow(lines, styles, enc, k)| > CharColumns || |PrimeRow(lines, styles, enc, k)| > PrimeRows
    ensures PrepareSample(lines, biases, styles, enc) == Failure(ValueError(BroadcastMismatch))
  {
  }

  /** Without styles nothing is primed: every priming row is empty, so only the character rows can overflow. */
  lemma UnstyledRows(lines: seq<string>, enc: Encoder)
    ensures RowsFit(lines, None, enc) <==> forall k :: 0 <= k < |lines| ==> |enc.encode(lines[k])| <= CharColumns
  {
    forall k | 0 <= k < |lines|
      ensures CharRow(lines, None, enc, k) == enc.encode(lines[k]) && PrimeRow(lines, None, enc, k) == []
    {
    }
  }

  /** The time-step budget is exactly 40 per character of some line: no more than the longest needs. */
  lemma TstepsTight(lines: seq<string>, biases: Option<seq<real>>, styles: Option<seq<string>>, enc: Encoder)
    returns (w: nat)
    requires |lines| > 0
    ensures w < |lines|
    ensures PrepareSample(lines, biases, styles, enc).Success? ==>
              PrepareSample(lines, biases, styles, enc).value.sampleTsteps == 40 * |lines[w]|
  {
    w := LongestLineAttained(lines);
  }

  /** A row of zeros in all three columns. */
  const ZeroRow: Point := Point(0.0, 0.0, 0.0)

  /** sample[~np.all(sample == 0.0, axis=1)]: every all-zero row removed, the others kept in order. */
  function DropZeroRows(sample: seq<Point>): (r: seq<Point>)
    ensures |r| <= |sample|
    ensures forall i :: 0 <= i < |r| ==> r[i] != ZeroRow
    ensures forall p :: p != ZeroRow ==> multiset(r)[p] == multiset(sample)[p]
  {
    if |sample| == 0 then []
    else
      assert sample == [sample[0]] + sample[1..];
      (if sample[0] == ZeroRow then [] else [sample[0]]) + DropZeroRows(sample[1..])
  }

  /** The filter works row by row: a zero row anywhere goes, not only at the end, and order is kept. */
  lemma {:induction false} DropZeroRowsAppend(a: seq<Point>, b: seq<Point>)
    ensures DropZeroRows(a + b) == DropZeroRows(a) + DropZeroRows(b)
  {
    if |a| == 0 {
      assert a + b == b;
    } else {
      assert (a + b)[0] == a[0] && (a + b)[1..] == a[1..] + b;
      DropZeroRowsAppend(a[1..], b);
    }
  }

  lemma DropZeroRowsSingle(p: Point)
    ensures DropZeroRows([p]) == if p == ZeroRow then [] else [p]
  {
    assert [p][1..] == [];
  }

  /** A sample with no zero row comes back unchanged; so the filter is idempotent. */
  lemma {:induction false} DropZeroRowsKeeps(sample: seq<Point>)
    requires forall i :: 0 <= i < |sample| ==> sample[i] != ZeroRow
    ensures DropZeroRows(sample) == sample
  {
    if |sample| > 0 {
      DropZeroRowsKeeps(sample[1..]);
    }
  }

  lemma DropZeroRowsIdempotent(sample: seq<Point>)
    ensures DropZeroRows(DropZeroRows(sample)) == DropZeroRows(sample)
  {
    DropZeroRowsKeeps(DropZeroRows(sample));
  }

  /** _sample: the prepared request goes to the network and each returned sample loses its zero rows. */
  function Sample(lines: seq<string>, biases: Option<seq<real>>, styles: Option<seq<string>>, enc: Encoder,
                  network: SampleRequest -> seq<seq<Point>>): (r: Result<seq<seq<Point>>, Error>)
    ensures r.Failure? <==> PrepareSample(lines, biases, styles, enc).Failure?
    ensures r.Failure? ==> r.error == PrepareSample(lines, biases, styles, enc).error
    ensures r.Success? ==> |r.value| == |network(PrepareSample(lines, biases, styles, enc).value)|
  {
    var request := PrepareSample(lines, biases, styles, enc);
    if request.Failure? then Failure(request.error)
    else
      var raw := network(request.value);
      Success(seq(|raw|, k requires 0 <= k < |raw| => DropZeroRows(raw[k])))
  }

  /**
   * Sample k is the network's sample k without its zero rows: none is
   * left, and every other row keeps its multiplicity.
   */
  lemma SampleRows(lines: seq<string>, biases: Option<seq<real>>, styles: Option<seq<string>>, enc: Encoder,
                   network: SampleRequest -> seq<seq<Point>>, k: nat)
    ensures PrepareSample(lines, biases, styles, enc).Success? ==>
              var raw := network(PrepareSample(lines, biases, styles, enc).value);
              var s := Sample(lines, biases, styles, enc, network).value;
              k < |raw| ==>
                && s[k] == DropZeroRows(raw[k])
                && (forall i :: 0 <= i < |s[k]| ==> s[k][i] != ZeroRow)
                && (forall p :: p != ZeroRow ==> multiset(s[k])[p] == multiset(raw[k])[p])
  {
  }

  /** strokes: the validated request's samples. */
  method Strokes(lines: seq<string>, biases: Option<seq<real>>, styles: Option<seq<string>>, alignment: string,
                 maxCharLen: nat, alphabet: set<char>, enc: Encoder, network: SampleRequest -> seq<seq<Point>>)
    returns (r: Result<seq<seq<Point>>, Error>)
    ensures RequestError(lines, alignment, maxCharLen, alphabet).Some? ==>
              r == Failure(RequestError(lines, alignment, maxCharLen, alphabet).value)
    ensures RequestError(lines, alignment, maxCharLen, alphabet).None? ==>
              r == Sample(lines, biases, styles, enc, network)
  {
    var err := ValidateRequest(lines, alignment, maxCharLen, alphabet);
    if err.Some? {
      return Failure(err.value);
    }
    return Sample(lines, biases, styles, enc, network);
  }

  /** The page _draw uses for Background(): A4, unruled, default margins and line space. */
  function DefaultPage(): Page
  {
    PageFor(StandardSizes["A4"], 8, 34, 33)
  }

  /**
   * write: the same validation as strokes; then the samples are drawn on
   * the given background or on Background(), with _draw's defaults.
   * Nothing is drawn when validation or sampling raises.
   */
  method Write(lines: seq<string>, background: Background?, biases: Option<seq<real>>,
               styles: Option<seq<string>>, strokeColors: seq<string>, strokeWidths: seq<real>,
               scale: real, alignment: string, maxCharLen: nat, alphabet: set<char>,
               enc: Encoder, network: SampleRequest -> seq<seq<Point>>, normalize: seq<Point> -> seq<Point>,
               jitter: seq<int>, canvas: Drawing)
    returns (err: Option<Error>)
    requires |jitter| >= |lines| && forall k :: 0 <= k < |jitter| ==> 0 <= jitter[k] <= 6
    modifies canvas`elements, canvas`saved
    ensures RequestError(lines, alignment, maxCharLen, alphabet).Some? ==>
              err == RequestError(lines, alignment, maxCharLen, alphabet)
              && canvas.elements == old(canvas.elements) && canvas.saved == old(canvas.saved)
    ensures RequestError(lines, alignment, maxCharLen, alphabet).None?
            && Sample(lines, biases, styles, enc, network).Failure? ==>
              err == Some(Sample(lines, biases, styles, enc, network).error)
              && canvas.elements == old(canvas.elements) && canvas.saved == old(canvas.saved)
    ensures RequestError(lines, alignment, maxCharLen, alphabet).None?
            && Sample(lines, biases, styles, enc, network).Success? ==>
              var samples := Sample(lines, biases, styles, enc, network).value;
              var page := if background == null then DefaultPage() else PageOf(background);
              var colors := OrDefault(strokeColors, "black", |lines|);
              var widths := OrDefault(strokeWidths, 2.0, |lines|);
              var n := ZipLength(|samples|, |lines|, |colors|, |widths|);
              var cs := Normalized(samples, scale, normalize);
              var stop := FirstEmpty(cs, lines, 0, n);
              && err == (if stop < n then Some(ValueError(EmptyReduction)) else None)
              && canvas.elements == old(canvas.elements)
                                    + Rendered(LineElements(cs, colors, widths, jitter, alignment, page, n), lines, stop)
              && canvas.saved == (old(canvas.saved) || stop == n)
  {
    err := ValidateRequest(lines, alignment, maxCharLen, alphabet);
    if err.Some? {
      return;
    }
    var bg := background;
    if bg == null {
      var created := Background.Create(Named("A4"), false);
      bg := created.value;
    }
    assert PageOf(bg) == if background == null then DefaultPage() else PageOf(background);
    var sampled := Sample(lines, biases, styles, enc, network);
    if sampled.Failure? {
      return Some(sampled.error);
    }
    var strokes := new seq<Point>[|sampled.value|](k requires 0 <= k < |sampled.value| => sampled.value[k]);
    assert strokes[..] == sampled.value;
    err := DrawLines(strokes, lines, bg, alignment, scale, strokeColors, strokeWidths, normalize, jitter, canvas);
  }
}
