/**
 * The drawing sink: an abstract stand-in for an svgwrite Drawing that
 * records, in order, the elements added to it.  Attribute formatting and
 * the file written by save are not modelled.
 */
module Svg {
  import opened Wrappers

  /** One command of a path's d attribute. */
  datatype Command = MoveTo(x: real, y: real) | LineTo(x: real, y: real)

  datatype Element =
    | Line(x1: int, y1: int, x2: int, y2: int, strokeWidth: int, color: string)
    | Path(commands: seq<Command>, color: string, width: real)

  class Drawing {
    const filename: string
    const width: real                      // physical size, in `unit`
    const height: real
    const unit: string
    var viewbox: Option<(int, int)>
    var elements: seq<Element>
    var saved: bool

    constructor (filename: string, width: real, height: real, unit: string)
      ensures this.filename == filename && this.width == width && this.height == height && this.unit == unit
      ensures viewbox == None && elements == [] && !saved
    {
      this.filename := filename;
      this.width, this.height, this.unit := width, height, unit;
      viewbox := None;
      elements := [];
      saved := false;
    }

    method SetViewbox(w: int, h: int)
      modifies this`viewbox
      ensures viewbox == Some((w, h))
    {
      viewbox := Some((w, h));
    }

    method Add(e: Element)
      modifies this`elements
      ensures elements == old(elements) + [e]
    {
      elements := elements + [e];
    }

    method Save()
      modifies this`saved
      ensures saved
    {
      saved := true;
    }
  }
}
