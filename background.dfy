/**
 * The page configuration of drawing/background.py: a size in millimetres,
 * margin offsets and ruling parameters, with validating setters that leave
 * the state untouched when they reject their input.
 */
module BackgroundConfig {
  import opened Wrappers
  import opened Errors
  import opened PageSizes
  import opened Args

  /** The forms a size argument can take: a table name, a 2-tuple, or anything else. */
  datatype SizeSpec = Named(name: string) | Pair(width: int, height: int) | Malformed

  /** How __init__ resolves its size argument: a dictionary subscript, no positivity check. */
  function InitialSize(spec: SizeSpec): (r: Result<(int, int), Error>)
    ensures spec.Named? ==> (r.Success? <==> spec.name in StandardSizes)
    ensures spec.Named? && r.Success? ==> r.value == StandardSizes[spec.name]
    ensures spec.Named? && r.Failure? ==> r.error == KeyError
    ensures spec.Pair? ==> r == Success((spec.width, spec.height))
    ensures spec.Malformed? ==> r == Failure(ValueError(InvalidSizeFormat))
  {
    match spec
    case Named(name) => if name in StandardSizes then Success(StandardSizes[name]) else Failure(KeyError)
    case Pair(w, h) => Success((w, h))
    case Malformed => Failure(ValueError(InvalidSizeFormat))
  }

  /** How set_size resolves its argument: a known name or a pair of positive sides. */
  function UpdatedSize(spec: SizeSpec): (r: Result<(int, int), Error>)
    ensures r.Success? <==> (spec.Named? && spec.name in StandardSizes)
                            || (spec.Pair? && spec.width > 0 && spec.height > 0)
    ensures r.Success? ==> r.value.0 > 0 && r.value.1 > 0
    ensures r.Success? && spec.Named? ==> r.value == StandardSizes[spec.name]
    ensures r.Success? && spec.Pair? ==> r.value == (spec.width, spec.height)
    ensures r.Failure? ==> r.error.ValueError?
    ensures spec.Named? && r.Failure? ==> r.error == ValueError(InvalidPaperSize)
    ensures spec.Pair? && r.Failure? ==> r.error == ValueError(NonPositiveSize)
    ensures spec.Malformed? ==> r == Failure(ValueError(InvalidSizeFormat))
  {
    match spec
    case Named(name) =>
      if name !in StandardSizes then Failure(ValueError(InvalidPaperSize))
      else
        StandardSizesPositive(name);
        Success(StandardSizes[name])
    case Pair(w, h) =>
      if w <= 0 || h <= 0 then Failure(ValueError(NonPositiveSize)) else Success((w, h))
    case Malformed => Failure(ValueError(InvalidSizeFormat))
  }

  class Background {
    var size: (int, int)
    var horizontalRuledLines: int
    var verticalRuledLines: int
    var offsetHorizontal: int
    var offsetVertical: int
    var lineSpace: int

    /** Margins and ruling are never negative: the defaults are not, and the setters refuse negatives. */
    ghost predicate Valid()
      reads this
    {
      horizontalRuledLines >= 0 && verticalRuledLines >= 0
      && offsetHorizontal >= 0 && offsetVertical >= 0 && lineSpace >= 0
    }

    /** The part of __init__ after the size argument has been resolved. */
    constructor Init(size: (int, int), ruled: bool)
      ensures Valid()
      ensures this.size == size
      ensures horizontalRuledLines == (if ruled then 32 else 0)
      ensures verticalRuledLines == (if ruled then 1 else 0)
      ensures offsetHorizontal == 34 && offsetVertical == 33 && lineSpace == 8
    {
      this.size := size;
      horizontalRuledLines := if ruled then 32 else 0;
      verticalRuledLines := if ruled then 1 else 0;
      offsetHorizontal := 34;
      offsetVertical := 33;
      lineSpace := 8;
    }

    /** Background(size, ruled): raises instead of returning an object when the size is refused. */
    static method Create(size: SizeSpec, ruled: bool) returns (r: Result<Background, Error>)
      ensures r.Failure? <==> InitialSize(size).Failure?
      ensures r.Failure? ==> r.error == InitialSize(size).error
      ensures r.Success? ==> fresh(r.value) && r.value.Valid()
      ensures r.Success? ==> r.value.size == InitialSize(size).value
      ensures r.Success? ==> r.value.horizontalRuledLines == (if ruled then 32 else 0)
                             && r.value.verticalRuledLines == (if ruled then 1 else 0)
      ensures r.Success? ==> r.value.offsetHorizontal == 34 && r.value.offsetVertical == 33
                             && r.value.lineSpace == 8
    {
      var resolved := InitialSize(size);
      if resolved.Failure? {
        return Failure(resolved.error);
      }
      var b := new Background.Init(resolved.value, ruled);
      return Success(b);
    }

    /** set_size: on success the new size, otherwise an error and the old size. */
    method SetSize(spec: SizeSpec) returns (err: Option<Error>)
      modifies this`size
      ensures err.None? <==> UpdatedSize(spec).Success?
      ensures err.None? ==> size == UpdatedSize(spec).value
      ensures err.Some? ==> err.value == UpdatedSize(spec).error && size == old(size)
    {
      var resolved := UpdatedSize(spec);
      if resolved.Failure? {
        return Some(resolved.error);
      }
      size := resolved.value;
      return None;
    }

    /** get_size: the size last set by __init__ or an accepted set_size. */
    function GetSize(): (int, int)
      reads this
    {
      size
    }

    method SetOffsets(horizontal: Arg, vertical: Arg) returns (err: Option<Error>)
      requires Valid()
      modifies this`offsetHorizontal, this`offsetVertical
      ensures Valid()
      ensures err == OffsetsCheck(horizontal, vertical)
      ensures err.None? ==> offsetHorizontal == horizontal.n && offsetVertical == vertical.n
      ensures err.Some? ==> offsetHorizontal == old(offsetHorizontal) && offsetVertical == old(offsetVertical)
    {
      err := OffsetsCheck(horizontal, vertical);
      if err.None? {
        offsetHorizontal := horizontal.n;
        offsetVertical := vertical.n;
      }
    }

    method SetRuledLineParameters(horizontal: Arg, vertical: Arg, space: Arg) returns (err: Option<Error>)
      requires Valid()
      modifies this`horizontalRuledLines, this`verticalRuledLines, this`lineSpace
      ensures Valid()
      ensures err == LineParametersCheck(horizontal, vertical, space)
      ensures err.None? ==> horizontalRuledLines == horizontal.n && verticalRuledLines == vertical.n
                            && lineSpace == space.n
      ensures err.Some? ==> horizontalRuledLines == old(horizontalRuledLines)
                            && verticalRuledLines == old(verticalRuledLines) && lineSpace == old(lineSpace)
    {
      err := LineParametersCheck(horizontal, vertical, space);
      if err.None? {
        horizontalRuledLines := horizontal.n;
        verticalRuledLines := vertical.n;
        lineSpace := space.n;
      }
    }
  }
}
