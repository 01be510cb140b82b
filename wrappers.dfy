/** Option and Result, and the exceptions the renderer raises. */
module Wrappers {

  datatype Option<+T> = None | Some(value: T)

  datatype Result<+R, +E> = Success(value: R) | Failure(error: E)
}

module Errors {

  /** What an exception message reports; the message text itself is not modelled. */
  datatype Message =
    | InvalidPaperSize              // a size name that is not in the table
    | NonPositiveSize               // a (width, height) pair with a side <= 0
    | InvalidSizeFormat             // neither a name nor a 2-tuple
    | NonIntOffsets
    | NegativeOffsets
    | NonIntLineParameters
    | NegativeLineParameters
    | InvalidUnit                   // a unit other than mm, cm, in
    | NotUnpackable                 // unpacking None as a (width, height) pair
    | EmptyReduction                // numpy min/max over a zero-size array
    | EmptyMax                      // Python max() of an empty list
    | BroadcastMismatch             // numpy assigning a row longer than the array row it fills
    | InvalidAlignment
    | LineTooLong(line: nat, length: nat)
    | InvalidCharacter(c: char, line: nat)

  datatype Error =
    | KeyError                      // dictionary subscript with an unknown key
    | TypeError(message: Message)
    | ValueError(message: Message)
}

/** The table of standard paper sizes, in millimetres (width, height). */
module PageSizes {
  import opened Wrappers

  const StandardSizes: map<string, (int, int)> := map[
    "A0" := (841, 1189),
    "A1" := (594, 841),
    "A2" := (420, 594),
    "A3" := (297, 420),
    "A4" := (210, 297),
    "A5" := (148, 210),
    "A6" := (105, 148),
    "Letter" := (216, 279),
    "Legal" := (216, 356),
    "Tabloid" := (279, 432)
  ]

  /** dict.get: the entry for a known name, None (and no error) otherwise. */
  function Lookup(name: string): (r: Option<(int, int)>)
    ensures r.Some? <==> name in StandardSizes
    ensures r.Some? ==> r.value == StandardSizes[name]
  {
    if name in StandardSizes then Some(StandardSizes[name]) else None
  }

  /** Every entry of the table has strictly positive sides. */
  lemma StandardSizesPositive(name: string)
    requires name in StandardSizes
    ensures StandardSizes[name].0 > 0 && StandardSizes[name].1 > 0
  {
  }
}

/** Python's dynamic argument checks: isinstance(x, int) and x < 0. */
module Args {
  import opened Wrappers
  import opened Errors

  /** A Python argument as far as the setters look at it: an int, or anything else. */
  datatype Arg = Int(n: int) | NotInt

  /** The check of set_offsets: the type test first, then the sign test. */
  function OffsetsCheck(horizontal: Arg, vertical: Arg): (r: Option<Error>)
    ensures r.None? <==> horizontal.Int? && vertical.Int? && horizontal.n >= 0 && vertical.n >= 0
    ensures (!horizontal.Int? || !vertical.Int?) ==> r == Some(TypeError(NonIntOffsets))
    ensures (horizontal.Int? && vertical.Int? && r.Some?) ==> r == Some(ValueError(NegativeOffsets))
  {
    if !horizontal.Int? || !vertical.Int? then Some(TypeError(NonIntOffsets))
    else if horizontal.n < 0 || vertical.n < 0 then Some(ValueError(NegativeOffsets))
    else None
  }

  /** The check of Background.set_ruled_line_parameters, in the same order. */
  function LineParametersCheck(horizontal: Arg, vertical: Arg, space: Arg): (r: Option<Error>)
    ensures r.None? <==> horizontal.Int? && vertical.Int? && space.Int?
                         && horizontal.n >= 0 && vertical.n >= 0 && space.n >= 0
    ensures (!horizontal.Int? || !vertical.Int? || !space.Int?) ==> r == Some(TypeError(NonIntLineParameters))
    ensures (horizontal.Int? && vertical.Int? && space.Int? && r.Some?) ==> r == Some(ValueError(NegativeLineParameters))
  {
    if !horizontal.Int? || !vertical.Int? || !space.Int? then Some(TypeError(NonIntLineParameters))
    else if horizontal.n < 0 || vertical.n < 0 || space.n < 0 then Some(ValueError(NegativeLineParameters))
    else None
  }
}
