/**
 * The page configuration of drawing/paper.py.  Unlike Background it keeps
 * the construction-time size name, which get_size reads and no setter
 * changes, and its ruling setter does no validation at all.
 */
module PaperConfig {
  import opened Wrappers
  import opened Errors
  import opened PageSizes
  import opened Args

  class Paper {
    const sizeName: string
    var width: int
    var height: int
    var horizontalRuledLines: int
    var verticalRuledLines: int
    var offsetHorizontal: int
    var offsetVertical: int
    var lineSpace: int

    /** The name is a table key (construction fails otherwise) and the offsets are never negative. */
    ghost predicate Valid()
      reads this
    {
      sizeName in StandardSizes && offsetHorizontal >= 0 && offsetVertical >= 0
    }

    constructor Init(name: string)
      requires name in StandardSizes
      ensures Valid() && sizeName == name
      ensures (width, height) == StandardSizes[name]
      ensures horizontalRuledLines == 34 && verticalRuledLines == 1
      ensures offsetHorizontal == 34 && offsetVertical == 33 && lineSpace == 8
    {
      sizeName := name;
      width, height := StandardSizes[name].0, StandardSizes[name].1;
      horizontalRuledLines := 34;
      verticalRuledLines := 1;
      offsetHorizontal := 34;
      offsetVertical := 33;
      lineSpace := 8;
    }

    /** Paper(size): the table subscript raises KeyError for an unknown name. */
    static method Create(name: string) returns (r: Result<Paper, Error>)
      ensures r.Failure? <==> name !in StandardSizes
      ensures r.Failure? ==> r.error == KeyError
      ensures r.Success? ==> fresh(r.value) && r.value.Valid() && r.value.sizeName == name
      ensures r.Success? ==> (r.value.width, r.value.height) == StandardSizes[name]
      ensures r.Success? ==> r.value.horizontalRuledLines == 34 && r.value.verticalRuledLines == 1
      ensures r.Success? ==> r.value.offsetHorizontal == 34 && r.value.offsetVertical == 33
                             && r.value.lineSpace == 8
    {
      if name !in StandardSizes {
        return Failure(KeyError);
      }
      var p := new Paper.Init(name);
      return Success(p);
    }

    /** get_size: the table entry of the construction-time name, whatever width and height are now. */
    function GetSize(): (r: (int, int))
      requires Valid()
      reads this
      ensures Lookup(sizeName) == Some(r)
    {
      StandardSizes[sizeName]
    }

    /** set_size: overwrites width and height, no validation. */
    method SetSize(w: int, h: int)
      modifies this`width, this`height
      ensures width == w && height == h
    {
      width, height := w, h;
    }

    /** set_paper: a known name sets width and height to its entry; an unknown one raises and changes nothing. */
    method SetPaper(name: string) returns (err: Option<Error>)
      modifies this`width, this`height
      ensures err.None? <==> name in StandardSizes
      ensures err.None? ==> (width, height) == StandardSizes[name]
      ensures err.Some? ==> err.value == ValueError(InvalidPaperSize)
                            && width == old(width) && height == old(height)
    {
      var size := Lookup(name);
      if size.Some? {
        width, height := size.value.0, size.value.1;
        return None;
      }
      return Some(ValueError(InvalidPaperSize));
    }

    method SetOffsets(horizontal: Arg, vertical: Arg) returns (err: Option<Error>)
      requires Valid()
      modifies this`offsetHorizontal, this`offsetVertical
      ensures Valid()
      ensures err == OffsetsCheck(horizontal, vertical)
      ensures err.None? ==> offsetHorizontal == horizontal.n && offsetVertical == vertical.n
      ensures err.Some? ==> offsetHorizontal == old(offsetHorizontal) && offsetVertical == old(offsetVertical)
    {
      err := OffsetsCheck(horizontal, vertical);
      if err.None? {
        offsetHorizontal, offsetVertical := horizontal.n, vertical.n;
      }
    }

    /** set_ruled_line_parameters: overwrites the three fields with any values, negatives included. */
    method SetRuledLineParameters(horizontal: int, vertical: int, space: int)
      modifies this`horizontalRuledLines, this`verticalRuledLines, this`lineSpace
      ensures horizontalRuledLines == horizontal && verticalRuledLines == vertical && lineSpace == space
    {
      horizontalRuledLines, verticalRuledLines, lineSpace := horizontal, vertical, space;
    }
  }

  /**
   * Resizing a paper does not change what get_size reports: it still
   * answers the entry of the name the paper was built with.
   */
  method ResizeKeepsReportedSize(p: Paper, w: int, h: int, name: string) returns (err: Option<Error>)
    requires p.Valid()
    modifies p`width, p`height
    ensures p.Valid() && p.GetSize() == old(p.GetSize()) == StandardSizes[p.sizeName]
    ensures err.None? <==> name in StandardSizes
    ensures err.None? ==> (p.width, p.height) == StandardSizes[name]
    ensures err.Some? ==> (p.width, p.height) == (w, h)
  {
    p.SetSize(w, h);
    err := p.SetPaper(name);
  }
}
