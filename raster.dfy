/** The ASCII rasteriser of main.c (render_frame): the world is mapped onto a
    grid of CW = W/sx columns and CH = H/sy rows, written after the score line
    into one buffer that is reused from call to call and only ever grows. */
module Raster {

  /** Everything render_frame is given besides the scores. */
  datatype Scene = Scene(
    W: int, H: int,
    x: real, y: real, ballS: real,
    paddleX: real, paddleY: real, paddleW: real, paddleH: real,
    paddle2X: real, paddle2Y: real, paddle2W: real, paddle2H: real,
    sx: int, sy: int)
  {
    /** Non-negative field and positive cell sizes. */
    predicate Valid() {
      W >= 0 && H >= 0 && sx > 0 && sy > 0
    }

    /** CW and CH; both operands are non-negative, so this is C's division. */
    function Cols(): nat requires Valid() { W / sx }
    function Rows(): nat requires Valid() { H / sy }
  }

  /** Room the buffer keeps before and after the grid. */
  const HeadRoom: nat := 64
  const TailRoom: nat := 128

  /** The capacity one frame needs. */
  function Needed(sc: Scene): nat
    requires sc.Valid()
  {
    HeadRoom + sc.Rows() * (sc.Cols() + 1) + TailRoom
  }

  /** The half-open rectangle test used for the paddles. */
  predicate InRect(px: real, py: real, left: real, top: real, w: real, h: real) {
    px >= left && px < left + w && py >= top && py < top + h
  }

  /** Centre of cell (cx, cy). */
  function CentreX(sc: Scene, cx: int): real { (cx * sc.sx) as real + sc.sx as real * 0.5 }
  function CentreY(sc: Scene, cy: int): real { (cy * sc.sy) as real + sc.sy as real * 0.5 }

  /** Some paddle contains the cell's centre. */
  predicate PaddleAt(sc: Scene, cx: int, cy: int) {
    InRect(CentreX(sc, cx), CentreY(sc, cy), sc.paddleX, sc.paddleY, sc.paddleW, sc.paddleH) ||
    InRect(CentreX(sc, cx), CentreY(sc, cy), sc.paddle2X, sc.paddle2Y, sc.paddle2W, sc.paddle2H)
  }

  /** The ball's box and the cell's full extent overlap (open intervals). */
  predicate BallAt(sc: Scene, cx: int, cy: int) {
    var cellL := (cx * sc.sx) as real;
    var cellT := (cy * sc.sy) as real;
    cellL + sc.sx as real > sc.x && cellL < sc.x + sc.ballS &&
    cellT + sc.sy as real > sc.y && cellT < sc.y + sc.ballS
  }

  /** The glyph of a cell, by priority: ball over paddle over net over background. */
  function Glyph(sc: Scene, cx: int, cy: int): char
    requires sc.Valid()
  {
    if BallAt(sc, cx, cy) then 'O'
    else if PaddleAt(sc, cx, cy) then '|'
    else if cx == sc.Cols() / 2 then ':'
    else '.'
  }

  /** The first n glyphs of row cy. */
  function Cells(sc: Scene, cy: int, n: nat): (r: seq<char>)
    requires sc.Valid()
    ensures |r| == n
    ensures forall cx :: 0 <= cx < n ==> r[cx] == Glyph(sc, cx, cy)
  {
    if n == 0 then [] else Cells(sc, cy, n - 1) + [Glyph(sc, n - 1, cy)]
  }

  /** The first n rows of the grid, each CW glyphs and a newline. */
  function Grid(sc: Scene, n: nat): seq<char>
    requires sc.Valid()
  {
    if n == 0 then [] else Grid(sc, n - 1) + Cells(sc, n - 1, sc.Cols()) + ['\n']
  }

  /** The whole grid. */
  function Picture(sc: Scene): seq<char>
    requires sc.Valid()
  {
    Grid(sc, sc.Rows())
  }

  // ---------------------------------------------------------------------------
  // Layout of the grid

  lemma MulMono(a: int, b: int, c: nat)
    requires a <= b
    ensures a * c <= b * c
  {
  }

  lemma MulSucc(a: int, b: int)
    ensures (a + 1) * b == a * b + b
  {
  }

  lemma DivModSplit(i: nat, w: nat)
    requires w > 0
    ensures i == (i / w) * w + i % w && 0 <= i % w < w
  {
  }

  lemma RealMulLe(a: real, b: real, k: real)
    requires a <= b && k > 0.0
    ensures a * k <= b * k
  {
  }

  lemma RealMulLt(a: real, b: real, k: real)
    requires a < b && k > 0.0
    ensures a * k < b * k
  {
  }

  lemma IntRealMul(a: int, b: int)
    ensures (a * b) as real == a as real * b as real
  {
  }

  /** n rows of CW + 1 characters each. */
  lemma {:induction false} GridLength(sc: Scene, n: nat)
    requires sc.Valid()
    ensures |Grid(sc, n)| == n * (sc.Cols() + 1)
  {
    if n > 0 {
      GridLength(sc, n - 1);
      assert n * (sc.Cols() + 1) == (n - 1) * (sc.Cols() + 1) + sc.Cols() + 1;
    }
  }

  /** Character (cx, cy) of the grid sits at cy * (CW + 1) + cx: column CW is
      the newline, the others are the cell glyphs. */
  lemma {:induction false} GridAt(sc: Scene, n: nat, cy: nat, cx: nat)
    requires sc.Valid() && cy < n && cx <= sc.Cols()
    ensures cy * (sc.Cols() + 1) + cx < |Grid(sc, n)|
    ensures Grid(sc, n)[cy * (sc.Cols() + 1) + cx] == if cx < sc.Cols() then Glyph(sc, cx, cy) else '\n'
  {
    var w := sc.Cols() + 1;
    GridLength(sc, n - 1);
    GridLength(sc, n);
    var g := Grid(sc, n - 1);
    assert Grid(sc, n) == g + Cells(sc, n - 1, sc.Cols()) + ['\n'];
    if cy < n - 1 {
      GridAt(sc, n - 1, cy, cx);
      MulMono(cy + 1, n - 1, w);
    } else {
      assert cy * w == |g|;
    }
  }

  /** Every character of the picture: a newline exactly at the end of each
      row of CW glyphs, and otherwise one of '.', ':', '|', 'O'. */
  lemma PictureLayout(sc: Scene, i: nat)
    requires sc.Valid() && i < |Picture(sc)|
    ensures var w := sc.Cols() + 1;
      i / w < sc.Rows() &&
      Picture(sc)[i] == (if i % w == sc.Cols() then '\n' else Glyph(sc, i % w, i / w)) &&
      Picture(sc)[i] in {'.', ':', '|', 'O', '\n'}
  {
    var w := sc.Cols() + 1;
    var n := sc.Rows();
    GridLength(sc, n);
    var cy, cx := i / w, i % w;
    DivModSplit(i, w);
    if cy >= n {
      MulMono(n, cy, w);
      assert false;
    }
    GridAt(sc, n, cy, cx);
  }

  /** A ball with positive size whose corner lies inside the gridded area is
      always drawn: the cell holding its corner overlaps it, however small it is. */
  lemma BallAlwaysDrawn(sc: Scene)
    requires sc.Valid() && sc.ballS > 0.0
    requires 0.0 <= sc.x < (sc.Cols() * sc.sx) as real && 0.0 <= sc.y < (sc.Rows() * sc.sy) as real
    ensures 'O' in Picture(sc)
  {
    var cx := CellOf(sc.x, sc.sx, sc.Cols());
    var cy := CellOf(sc.y, sc.sy, sc.Rows());
    assert BallAt(sc, cx, cy);
    GlyphInPicture(sc, cx, cy);
  }

  /** Every cell of the grid shows up in the picture. */
  lemma GlyphInPicture(sc: Scene, cx: nat, cy: nat)
    requires sc.Valid() && cx < sc.Cols() && cy < sc.Rows()
    ensures Glyph(sc, cx, cy) in Picture(sc)
  {
    var i: nat := cy * (sc.Cols() + 1) + cx;
    assert i < |Picture(sc)| && Picture(sc)[i] == Glyph(sc, cx, cy) by {
      GridAt(sc, sc.Rows(), cy, cx);
    }
    Member(Picture(sc), i, Glyph(sc, cx, cy));
  }

  lemma Member(s: seq<char>, i: nat, c: char)
    requires i < |s| && s[i] == c
    ensures c in s
  {
  }

  /** The cell (of size k, counted from 0) that holds v. */
  lemma FloorCell(v: real, k: real, n: real) returns (c: int)
    requires k > 0.0 && 0.0 <= v < n * k
    ensures 0 <= c && c as real < n
    ensures c as real * k <= v < c as real * k + k
  {
    var q := v / k;
    assert q * k == v;
    c := q.Floor;
    assert c as real <= q < c as real + 1.0;
    RealMulLe(c as real, q, k);
    RealMulLt(q, c as real + 1.0, k);
    assert v < (c as real + 1.0) * k;
    assert (c as real + 1.0) * k == c as real * k + k;
    if c < 0 {
      RealMulLe(c as real + 1.0, 0.0, k);
      assert false;
    }
    if c as real >= n {
      RealMulLe(n, c as real, k);
      assert false;
    }
  }
  /** The cell holding coordinate v, for cells of size s: it starts at or
      before v and ends after it. */
  lemma CellOf(v: real, s: int, count: nat) returns (c: nat)
    requires s > 0 && 0.0 <= v < (count * s) as real
    ensures c < count
    ensures (c * s) as real <= v < (c * s) as real + s as real
  {
    IntRealMul(count, s);
    var f := FloorCell(v, s as real, count as real);
    c := f;
    IntRealMul(c, s);
  }

  // ---------------------------------------------------------------------------
  // The buffer

  /** render_frame's static buffer: frame and frame_cap. */
  class Renderer {
    var frame: array<char>
    var frameCap: nat

    ghost predicate Valid()
      reads this
    {
      frame.Length == frameCap
    }

    /** The buffer before the first frame: no storage, no capacity. */
    constructor ()
      ensures Valid() && frameCap == 0
    {
      frame := new char[0];
      frameCap := 0;
    }

    /** Draws one frame into the buffer and returns its length: the score line
        (header, already formatted) followed by the grid. The buffer is
        replaced only when it is too small, so its capacity never decreases. */
    method Render(sc: Scene, header: seq<char>) returns (len: nat)
      requires Valid() && sc.Valid() && |header| <= HeadRoom
      modifies this, frame
      ensures Valid()
      ensures frameCap == if Needed(sc) > old(frameCap) then Needed(sc) else old(frameCap)
      ensures Needed(sc) <= old(frameCap) ==> frame == old(frame)
      ensures Needed(sc) > old(frameCap) ==> fresh(frame)
      ensures len <= frame.Length && frame[..len] == header + Picture(sc)
      ensures len == |header| + sc.Rows() * (sc.Cols() + 1)
    {
      var CW := sc.W / sc.sx;
      var CH := sc.H / sc.sy;
      var needed := HeadRoom + CH * (CW + 1) + TailRoom;
      Reserve(needed);
      var buf := frame;
      WriteHeader(buf, header);
      len := WriteGrid(buf, |header|, sc);
    }

    /** Grows the buffer to hold needed characters; an adequate one is kept
        (its contents are then left as they were). */
    method Reserve(needed: nat)
      requires Valid()
      modifies this`frame, this`frameCap
      ensures Valid()
      ensures frameCap == if needed > old(frameCap) then needed else old(frameCap)
      ensures needed <= old(frameCap) ==> frame == old(frame)
      ensures needed > old(frameCap) ==> fresh(frame)
    {
      if needed > frameCap {
        frame := new char[needed];
        frameCap := needed;
      }
    }
  }

  /** The score line at the start of the buffer (snprintf's output). */
  method WriteHeader(buf: array<char>, header: seq<char>)
    requires |header| <= buf.Length
    modifies buf
    ensures buf[..|header|] == header
  {
    forall i | 0 <= i < |header| {
      buf[i] := header[i];
    }
  }

  /** render_frame's two nested loops: the CH rows of the grid are written
      from position start on; what comes before is left alone. */
  method WriteGrid(buf: array<char>, start: nat, sc: Scene) returns (len: nat)
    requires sc.Valid() && start + sc.Rows() * (sc.Cols() + 1) <= buf.Length
    modifies buf
    ensures len == start + sc.Rows() * (sc.Cols() + 1)
    ensures buf[..len] == old(buf[..start]) + Picture(sc)
  {
    var CW := sc.W / sc.sx;
    var CH := sc.H / sc.sy;
    len := start;
    var cy := 0;
    while cy < CH
      invariant 0 <= cy <= CH
      invariant len == start + cy * (CW + 1)
      invariant buf[..len] == old(buf[..start]) + Grid(sc, cy)
    {
      assert len + CW + 1 <= buf.Length && start + (cy + 1) * (CW + 1) == len + CW + 1 by {
        MulMono(cy + 1, CH, CW + 1);
        MulSucc(cy, CW + 1);
      }
      ghost var done := buf[..len];
      len := WriteRow(buf, len, sc, cy);
      assert buf[..len] == done + Cells(sc, cy, CW) + ['\n'];
      assert Grid(sc, cy + 1) == Grid(sc, cy) + Cells(sc, cy, CW) + ['\n'];
      cy := cy + 1;
    }
  }

  /** One pass of render_frame's inner loop and the newline after it: row cy
      is written from position start on; what comes before is left alone. */
  method WriteRow(buf: array<char>, start: nat, sc: Scene, cy: int) returns (len: nat)
    requires sc.Valid() && start + sc.Cols() + 1 <= buf.Length
    modifies buf
    ensures len == start + sc.Cols() + 1
    ensures buf[..len] == old(buf[..start]) + Cells(sc, cy, sc.Cols()) + ['\n']
  {
    var CW := sc.W / sc.sx;
    len := start;
    var cx := 0;
    while cx < CW
      invariant 0 <= cx <= CW
      invariant len == start + cx
      invariant buf[..len] == old(buf[..start]) + Cells(sc, cy, cx)
    {
      var c := CellGlyph(sc, cx, cy);
      ghost var before := buf[..len];
      buf[len] := c;
      assert buf[..len + 1] == before + [c];
      len := len + 1;
      cx := cx + 1;
    }
    ghost var before := buf[..len];
    buf[len] := '\n';
    assert buf[..len + 1] == before + ['\n'];
    len := len + 1;
  }

  /** The body of render_frame's inner loop: the glyph tests in the order of
      main.c, each later one overriding the earlier ones. */
  method CellGlyph(sc: Scene, cx: int, cy: int) returns (c: char)
    requires sc.Valid()
    ensures c == Glyph(sc, cx, cy)
  {
    var CW := sc.W / sc.sx;
    // centre of the cell
    var px := (cx * sc.sx) as real + sc.sx as real * 0.5;
    var py := (cy * sc.sy) as real + sc.sy as real * 0.5;

    c := '.';
    if cx == CW / 2 { c := ':'; }
    if px >= sc.paddleX && px < sc.paddleX + sc.paddleW &&
       py >= sc.paddleY && py < sc.paddleY + sc.paddleH {
      c := '|';
    }
    if px >= sc.paddle2X && px < sc.paddle2X + sc.paddle2W &&
       py >= sc.paddle2Y && py < sc.paddle2Y + sc.paddle2H {
      c := '|';
    }

    var cellL := (cx * sc.sx) as real;
    var cellR := cellL + sc.sx as real;
    var cellT := (cy * sc.sy) as real;
    var cellB := cellT + sc.sy as real;
    var ballL := sc.x;
    var ballR := sc.x + sc.ballS;
    var ballT := sc.y;
    var ballB := sc.y + sc.ballS;
    if cellR > ballL && cellL < ballR && cellB > ballT && cellT < ballB {
      c := 'O';
    }
  }

  /** Two frames drawn from the same scene and score line are byte-identical,
      and the second one reuses the buffer the first one left: the buffer is
      reallocated at most once, and only when the first frame needs more room. */
  method RenderTwice(r: Renderer, sc: Scene, header: seq<char>)
    returns (first: seq<char>, second: seq<char>, ghost firstBuf: array<char>)
    requires r.Valid() && sc.Valid() && |header| <= HeadRoom
    modifies r, r.frame
    ensures r.Valid()
    ensures first == second == header + Picture(sc)
    ensures r.frame == firstBuf
    ensures Needed(sc) <= old(r.frameCap) ==> firstBuf == old(r.frame)
    ensures Needed(sc) > old(r.frameCap) ==> fresh(firstBuf)
    ensures r.frameCap == if Needed(sc) > old(r.frameCap) then Needed(sc) else old(r.frameCap)
  {
    var n1 := r.Render(sc, header);
    first := r.frame[..n1];
    firstBuf := r.frame;
    var n2 := r.Render(sc, header);
    second := r.frame[..n2];
  }
}
