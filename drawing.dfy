/** The drawing surface as the renderer sees it: a recorder of pages and of
    abstract draw commands. Fonts, text colours, stroke colours, corner radii
    and the PDF byte stream are not represented. */
module Drawing {

  datatype Rgb = Rgb(r: int, g: int, b: int)

  /** An x coordinate: a fixed integer, or one derived from the page width by
      fractional arithmetic (centred text, the trip table's fifth-width columns). */
  datatype XPos = At(x: int) | Derived

  datatype Cmd =
    | Fill(colour: Rgb)                        // setFillColor
    | Rect(x: int, y: int, w: int, h: int)     // filled rect
    | Panel(x: int, y: int, w: int, h: int)    // filled rounded rect
    | Outline(x: int, y: int, w: int, h: int)  // stroked rounded rect
    | Line(x1: int, y1: int, x2: int, y2: int)
    | Dot(x: int, y: int)                      // small filled circle
    | Text(s: string, at: XPos, y: int)

  /** A recorded command and the page it was drawn on (pages count from 1). */
  datatype Entry = Entry(page: nat, cmd: Cmd)

  const Purple := Rgb(84, 28, 156)
  const Lavender := Rgb(240, 230, 255)
  const RowTinted := Rgb(248, 240, 255)
  const White := Rgb(255, 255, 255)
  const LightGrey := Rgb(245, 245, 245)

  /** Commands drawn one after another on the same page. */
  function Tag(page: nat, cmds: seq<Cmd>): (r: seq<Entry>)
    ensures |r| == |cmds|
    ensures forall i | 0 <= i < |cmds| :: r[i] == Entry(page, cmds[i])
  {
    seq(|cmds|, i requires 0 <= i < |cmds| => Entry(page, cmds[i]))
  }

  /** Drawing `a` and then `b` on one page logs the same as drawing `a + b`. */
  lemma DrawTwice(log: seq<Entry>, page: nat, a: seq<Cmd>, b: seq<Cmd>)
    ensures log + Tag(page, a) + Tag(page, b) == log + Tag(page, a + b)
  {
    assert Tag(page, a + b) == Tag(page, a) + Tag(page, b);
  }

  /** Proof step: appending two pieces one after the other is appending their
      concatenation (sequence associativity, stated once to keep proofs cheap). */
  lemma AppendTwice(log: seq<Entry>, a: seq<Entry>, b: seq<Entry>)
    ensures log + a + b == log + (a + b)
  {
  }

  /** A piece `x` logged right after a prefix `p` of a log sits at `|p|` in it. */
  lemma PieceAt(p: seq<Entry>, x: seq<Entry>, log: seq<Entry>)
    requires p + x <= log
    ensures |p| + |x| <= |log| && log[|p| .. |p| + |x|] == x
  {
    assert log[|p| .. |p| + |x|] == (p + x)[|p| ..];
  }

  /** The PDF document: its page size, its pages and the commands drawn on
      them so far. Drawing always goes to the current page. */
  class Surface {
    const width: int
    const height: int
    var pageCount: nat
    var currentPage: nat
    var log: seq<Entry>

    /** The current page exists, and so does every page drawn on. */
    ghost predicate Valid()
      reads this
    {
      1 <= currentPage <= pageCount
      && forall i | 0 <= i < |log| :: 1 <= log[i].page <= pageCount
    }

    /** `new jsPDF()`: one empty page, which is current. */
    constructor(width: int, height: int)
      ensures Valid()
      ensures this.width == width && this.height == height
      ensures pageCount == 1 && currentPage == 1 && log == []
    {
      this.width := width;
      this.height := height;
      pageCount := 1;
      currentPage := 1;
      log := [];
    }

    /** `addPage()`: appends a page and makes it current. */
    method AddPage()
      requires Valid()
      modifies this
      ensures Valid()
      ensures pageCount == old(pageCount) + 1 && currentPage == pageCount
      ensures log == old(log)
    {
      pageCount := pageCount + 1;
      currentPage := pageCount;
    }

    /** `setPage(n)`: makes an existing page current. */
    method SetPage(n: nat)
      requires Valid() && 1 <= n <= pageCount
      modifies this
      ensures Valid()
      ensures currentPage == n && pageCount == old(pageCount) && log == old(log)
    {
      currentPage := n;
    }

    /** Draws `cmds`, in order, on the current page. */
    method Draw(cmds: seq<Cmd>)
      requires Valid()
      modifies this
      ensures Valid()
      ensures pageCount == old(pageCount) && currentPage == old(currentPage)
      ensures log == old(log) + Tag(currentPage, cmds)
    {
      log := log + Tag(currentPage, cmds);
    }
  }
}
