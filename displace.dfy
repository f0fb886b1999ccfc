/** Depth-from-luminance displacement of the plane: for every vertex of a
    cols x rows grid, the depth computed from its resampled RGBA sample is
    written into the z slot of the flat, stride-3 position buffer. */
module Displace {
  import opened Depth

  /** Cell (x, y) of a grid with `cols` columns is vertex y * cols + x, and
      that vertex's column and row are recovered by % and /. */
  lemma VertexOfCell(cols: int, rows: int, x: int, y: int)
    requires cols > 0 && 0 <= x < cols && 0 <= y < rows
    ensures 0 <= y * cols + x < cols * rows
    ensures (y * cols + x) % cols == x && (y * cols + x) / cols == y
  {
    var v := y * cols + x;
    assert y * cols <= (rows - 1) * cols by {
      MulLeq(y, rows - 1, cols);
    }
    DivModUnique(v, cols, y, x);
  }

  lemma MulLeq(a: int, b: int, c: int)
    requires a <= b && c >= 0
    ensures a * c <= b * c
  {
    assert b * c - a * c == (b - a) * c;
  }

  /** The quotient and remainder of v by d are the only q, r with v == q * d + r and 0 <= r < d. */
  lemma DivModUnique(v: int, d: int, q: int, r: int)
    requires d > 0 && 0 <= r < d && v == q * d + r
    ensures v / d == q && v % d == r
  {
    var q', r' := v / d, v % d;
    assert v == q' * d + r';
    assert (q - q') * d == r' - r;
    if q > q' {
      MulLeq(1, q - q', d);
    } else if q < q' {
      MulLeq(1, q' - q, d);
    }
  }

  predicate AllBytes(data: seq<int>)
  {
    forall i :: 0 <= i < |data| ==> IsByte(data[i])
  }

  /** Depth of vertex v of a cols x rows grid: the luma of its RGBA sample (the
      four bytes at 4 v) attenuated by the mask at its normalised coordinates. */
  function VertexDepth(data: seq<int>, cols: int, rows: int, v: int, intensity: real): real
    requires cols >= 2 && rows >= 2 && 0 <= v < cols * rows && |data| == cols * rows * 4
  {
    var x, y := v % cols, v / cols;
    DepthOf(Luma(data[4 * v], data[4 * v + 1], data[4 * v + 2]), intensity,
            Mask(NormCoord(x, cols), NormCoord(y, rows)))
  }

  /** The position buffer after displacement: z slots (index % 3 == 2) hold the
      vertex depths, every x and y slot is as before. */
  function Displaced(pos: seq<real>, cols: int, rows: int, data: seq<int>, intensity: real): (r: seq<real>)
    requires cols >= 2 && rows >= 2
    requires |pos| == cols * rows * 3 && |data| == cols * rows * 4
    ensures |r| == |pos|
  {
    seq(|pos|, k requires 0 <= k < |pos| =>
      if k % 3 == 2 then VertexDepth(data, cols, rows, k / 3, intensity) else pos[k])
  }

  /** Only the z slots change: the buffer keeps its length and every x and y component. */
  lemma DisplacedFrame(pos: seq<real>, cols: int, rows: int, data: seq<int>, intensity: real)
    requires cols >= 2 && rows >= 2
    requires |pos| == cols * rows * 3 && |data| == cols * rows * 4
    ensures |Displaced(pos, cols, rows, data, intensity)| == |pos|
    ensures forall k :: 0 <= k < |pos| && k % 3 != 2 ==> Displaced(pos, cols, rows, data, intensity)[k] == pos[k]
  {
  }

  /** Grid cell (x, y) is written exactly at slot (y * cols + x) * 3 + 2, with the
      depth of the sample at byte (y * cols + x) * 4 and the mask at (x, y)'s
      normalised coordinates; its x and y slots are unchanged. */
  lemma DisplacedAtCell(pos: seq<real>, cols: int, rows: int, data: seq<int>, intensity: real, x: int, y: int)
    requires cols >= 2 && rows >= 2
    requires |pos| == cols * rows * 3 && |data| == cols * rows * 4
    requires 0 <= x < cols && 0 <= y < rows
    ensures (y * cols + x) * 3 + 2 < |pos| && (y * cols + x) * 4 + 2 < |data|
    ensures Displaced(pos, cols, rows, data, intensity)[(y * cols + x) * 3 + 2]
      == DepthOf(Luma(data[(y * cols + x) * 4], data[(y * cols + x) * 4 + 1], data[(y * cols + x) * 4 + 2]),
                 intensity, Mask(NormCoord(x, cols), NormCoord(y, rows)))
    ensures Displaced(pos, cols, rows, data, intensity)[(y * cols + x) * 3] == pos[(y * cols + x) * 3]
    ensures Displaced(pos, cols, rows, data, intensity)[(y * cols + x) * 3 + 1] == pos[(y * cols + x) * 3 + 1]
  {
    VertexOfCell(cols, rows, x, y);
    var v := y * cols + x;
    DivModUnique(v * 3 + 2, 3, v, 2);
    DivModUnique(v * 3 + 1, 3, v, 1);
    DivModUnique(v * 3, 3, v, 0);
  }

  /** For bytes in 0..255 every written depth is at most 0.7 * |intensity| in magnitude. */
  lemma DisplacedBounded(pos: seq<real>, cols: int, rows: int, data: seq<int>, intensity: real)
    requires cols >= 2 && rows >= 2
    requires |pos| == cols * rows * 3 && |data| == cols * rows * 4
    requires AllBytes(data)
    ensures forall k :: 0 <= k < |pos| && k % 3 == 2 ==>
      Abs(Displaced(pos, cols, rows, data, intensity)[k]) <= MaxDepthScale * Abs(intensity)
  {
    var d := Displaced(pos, cols, rows, data, intensity);
    forall k | 0 <= k < |pos| && k % 3 == 2
      ensures Abs(d[k]) <= MaxDepthScale * Abs(intensity)
    {
      VertexDepthBounded(data, cols, rows, k / 3, intensity);
    }
  }

  /** The depth of one vertex of a byte sample is within 0.7 * |intensity|. */
  lemma VertexDepthBounded(data: seq<int>, cols: int, rows: int, v: int, intensity: real)
    requires cols >= 2 && rows >= 2 && 0 <= v < cols * rows && |data| == cols * rows * 4
    requires AllBytes(data)
    ensures Abs(VertexDepth(data, cols, rows, v, intensity)) <= MaxDepthScale * Abs(intensity)
  {
    var x, y := v % cols, v / cols;
    assert 0 <= y < rows by {
      if y >= rows {
        MulLeq(rows, y, cols);
      }
    }
    DepthBounded(Luma(data[4 * v], data[4 * v + 1], data[4 * v + 2]), intensity,
                 Mask(NormCoord(x, cols), NormCoord(y, rows)));
  }

  /** The four corners lie on the unit circle of normalised coordinates, so the
      displacement leaves them flat. */
  lemma DisplacedCornersFlat(pos: seq<real>, cols: int, rows: int, data: seq<int>, intensity: real, x: int, y: int)
    requires cols >= 2 && rows >= 2
    requires |pos| == cols * rows * 3 && |data| == cols * rows * 4
    requires (x == 0 || x == cols - 1) && (y == 0 || y == rows - 1)
    ensures (y * cols + x) * 3 + 2 < |pos|
    ensures Displaced(pos, cols, rows, data, intensity)[(y * cols + x) * 3 + 2] == 0.0
  {
    DisplacedAtCell(pos, cols, rows, data, intensity, x, y);
    var nx, ny := NormCoord(x, cols), NormCoord(y, rows);
    assert nx * nx == 1.0 && ny * ny == 1.0;
    DepthVanishesOutsideCircle(Luma(data[(y * cols + x) * 4], data[(y * cols + x) * 4 + 1],
      data[(y * cols + x) * 4 + 2]), intensity, nx, ny);
  }

  /** Displacement is re-runnable: applying it with a new intensity replaces the
      depths of an earlier run instead of accumulating on them. */
  lemma DisplacedRerun(pos: seq<real>, cols: int, rows: int, data: seq<int>, first: real, second: real)
    requires cols >= 2 && rows >= 2
    requires |pos| == cols * rows * 3 && |data| == cols * rows * 4
    ensures Displaced(Displaced(pos, cols, rows, data, first), cols, rows, data, second)
         == Displaced(pos, cols, rows, data, second)
  {
    var once := Displaced(pos, cols, rows, data, first);
    var twice := Displaced(once, cols, rows, data, second);
    var direct := Displaced(pos, cols, rows, data, second);
    assert |twice| == |direct|;
    forall k | 0 <= k < |direct| ensures twice[k] == direct[k] {
    }
  }

  /** The first m slots of s are those of target, the rest those of before. */
  ghost predicate WrittenUpTo(s: seq<real>, before: seq<real>, target: seq<real>, m: int)
    requires |s| == |before| == |target|
  {
    forall k :: 0 <= k < |s| ==> s[k] == if k < m then target[k] else before[k]
  }

  /** Writing the z slot of vertex v extends the written prefix past the whole vertex. */
  lemma WriteVertex(s: seq<real>, before: seq<real>, target: seq<real>, v: int)
    requires |s| == |before| == |target| && 0 <= v && 3 * v + 2 < |s|
    requires WrittenUpTo(s, before, target, 3 * v)
    requires target[3 * v] == before[3 * v] && target[3 * v + 1] == before[3 * v + 1]
    ensures WrittenUpTo(s[3 * v + 2 := target[3 * v + 2]], before, target, 3 * v + 3)
  {
  }

  /** One step of the displacement loop: cell (x, y) is vertex v, its sample and
      slot are in range, and writing its depth extends the written prefix. */
  lemma WriteCell(s: seq<real>, before: seq<real>, cols: int, rows: int, data: seq<int>, intensity: real,
                  x: int, y: int, v: int)
    requires cols >= 2 && rows >= 2
    requires |before| == cols * rows * 3 && |data| == cols * rows * 4 && |s| == |before|
    requires 0 <= x < cols && 0 <= y < rows && v == y * cols + x
    requires WrittenUpTo(s, before, Displaced(before, cols, rows, data, intensity), 3 * v)
    ensures 0 <= v && 3 * v + 2 < |s| && 4 * v + 2 < |data|
    ensures WrittenUpTo(s[3 * v + 2 := DepthOf(Luma(data[4 * v], data[4 * v + 1], data[4 * v + 2]),
                                               intensity, Mask(NormCoord(x, cols), NormCoord(y, rows)))],
                        before, Displaced(before, cols, rows, data, intensity), 3 * v + 3)
  {
    DisplacedAtCell(before, cols, rows, data, intensity, x, y);
    WriteVertex(s, before, Displaced(before, cols, rows, data, intensity), v);
  }

  lemma WrittenAll(s: seq<real>, before: seq<real>, target: seq<real>, m: int)
    requires |s| == |before| == |target| && m >= |s|
    requires WrittenUpTo(s, before, target, m)
    ensures s == target
  {
  }

  /** The displacement loop: rows y, then columns x; vertex (x, y) reads the
      sample at byte (y * cols + x) * 4 and writes slot (y * cols + x) * 3 + 2. */
  method WriteDepths(pos: array<real>, cols: int, rows: int, data: seq<int>, intensity: real)
    requires cols >= 2 && rows >= 2
    requires pos.Length == cols * rows * 3 && |data| == cols * rows * 4
    modifies pos
    ensures pos[..] == Displaced(old(pos[..]), cols, rows, data, intensity)
  {
    ghost var before := pos[..];
    ghost var target := Displaced(before, cols, rows, data, intensity);
    for y := 0 to rows
      invariant WrittenUpTo(pos[..], before, target, 3 * (y * cols))
    {
      WriteRow(pos, cols, rows, data, intensity, y, before);
      assert (y + 1) * cols == y * cols + cols;
    }
    assert 3 * (rows * cols) == |target|;
    WrittenAll(pos[..], before, target, 3 * (rows * cols));
  }

  /** The inner loop of the displacement: the columns of row y, left to right. */
  method WriteRow(pos: array<real>, cols: int, rows: int, data: seq<int>, intensity: real, y: int,
                  ghost before: seq<real>)
    requires cols >= 2 && rows >= 2 && 0 <= y < rows
    requires |before| == cols * rows * 3 && |data| == cols * rows * 4 && pos.Length == |before|
    requires WrittenUpTo(pos[..], before, Displaced(before, cols, rows, data, intensity), 3 * (y * cols))
    modifies pos
    ensures WrittenUpTo(pos[..], before, Displaced(before, cols, rows, data, intensity), 3 * (y * cols + cols))
  {
    ghost var target := Displaced(before, cols, rows, data, intensity);
    for x := 0 to cols
      invariant WrittenUpTo(pos[..], before, target, 3 * (y * cols + x))
    {
      var v := y * cols + x;
      ghost var prev := pos[..];
      WriteCell(prev, before, cols, rows, data, intensity, x, y, v);
      var i := v * 4;
      var lum := Luma(data[i], data[i + 1], data[i + 2]);
      var mask := Mask(NormCoord(x, cols), NormCoord(y, rows));
      var z := DepthOf(lum, intensity, mask);
      var idx := v * 3;
      pos[idx + 2] := z;
      assert pos[..] == prev[3 * v + 2 := z];
    }
  }
}
