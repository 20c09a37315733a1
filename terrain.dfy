/** The floor under the asteroid field (class Terrain): one square of six
    vertices, scaled by the field size and laid out as a 10 by 10 grid of
    tiles in one 3000-float buffer. */
module Floor {
  import opened Common

  /** Six vertices of five floats: position x, y, z, texture s, t. */
  const VertexFloats: nat := 5
  const SquareVertices: nat := 6
  const SquareSize: nat := 30
  const LayoutSize: nat := 3000

  /** The square of the header: two triangles over [-1, 1]^2 at z = 0. */
  const Square: seq<real> := [
    -1.0, -1.0, 0.0, 0.0, 0.0,
    -1.0, 1.0, 0.0, 0.0, 1.0,
    1.0, -1.0, 0.0, 1.0, 0.0,
    1.0, -1.0, 0.0, 1.0, 0.0,
    -1.0, 1.0, 0.0, 0.0, 1.0,
    1.0, 1.0, 0.0, 1.0, 1.0]

  /** The square after setScale's loop: the position floats (offsets 0 to 2
      of each vertex) multiplied by k, texture coordinates kept. */
  function ScaledSquare(fv: seq<real>, k: real): (r: seq<real>)
    requires |fv| == SquareSize
    ensures |r| == SquareSize
  {
    seq(SquareSize, i requires 0 <= i < SquareSize => if i % 5 < 3 then fv[i] * k else fv[i])
  }

  /** Vertex z of tile (x, y): shifted by size / 5 per tile and by 100 on x
      and y, with z and the texture coordinates copied. */
  function TileVertex(fv: seq<real>, size: real, x: int, y: int, z: nat): (v: seq<real>)
    requires |fv| == SquareSize && z < SquareVertices
    ensures |v| == VertexFloats
  {
    [fv[z * 5] + (size / 5.0) * (x as real) + 100.0,
     fv[z * 5 + 1] + (size / 5.0) * (y as real) + 100.0,
     fv[z * 5 + 2], fv[z * 5 + 3], fv[z * 5 + 4]]
  }

  /** The first n vertices of tile (x, y). */
  function Tile(fv: seq<real>, size: real, x: int, y: int, n: nat): (r: seq<real>)
    requires |fv| == SquareSize && n <= SquareVertices
    ensures |r| == 5 * n
  {
    if n == 0 then [] else Tile(fv, size, x, y, n - 1) + TileVertex(fv, size, x, y, n - 1)
  }

  /** The first m tiles of column x: y from -5 up. */
  function Column(fv: seq<real>, size: real, x: int, m: nat): (r: seq<real>)
    requires |fv| == SquareSize && m <= 10
    ensures |r| == 30 * m
  {
    if m == 0 then [] else Column(fv, size, x, m - 1) + Tile(fv, size, x, m - 1 - 5, 6)
  }

  /** The first k columns: x from -5 up. */
  function Columns(fv: seq<real>, size: real, k: nat): (r: seq<real>)
    requires |fv| == SquareSize && k <= 10
    ensures |r| == 300 * k
  {
    if k == 0 then [] else Columns(fv, size, k - 1) + Column(fv, size, k - 1 - 5, 10)
  }

  /** The buffer setScale fills for a square and a size. */
  function Layout(fv: seq<real>, size: real): (r: seq<real>)
    requires |fv| == SquareSize
    ensures |r| == LayoutSize
  {
    Columns(fv, size, 10)
  }

  lemma {:induction false} TileAt(fv: seq<real>, size: real, x: int, y: int, n: nat, z: nat, c: nat)
    requires |fv| == SquareSize && z < n <= SquareVertices && c < 5
    ensures Tile(fv, size, x, y, n)[5 * z + c] == TileVertex(fv, size, x, y, z)[c]
  {
    if z < n - 1 {
      TileAt(fv, size, x, y, n - 1, z, c);
    }
  }

  lemma {:induction false} ColumnAt(fv: seq<real>, size: real, x: int, m: nat, j: nat, i: nat)
    requires |fv| == SquareSize && j < m <= 10 && i < 30
    ensures Column(fv, size, x, m)[30 * j + i] == Tile(fv, size, x, j - 5, 6)[i]
  {
    if j < m - 1 {
      ColumnAt(fv, size, x, m - 1, j, i);
    }
  }

  lemma {:induction false} ColumnsAt(fv: seq<real>, size: real, k: nat, j: nat, i: nat)
    requires |fv| == SquareSize && j < k <= 10 && i < 300
    ensures Columns(fv, size, k)[300 * j + i] == Column(fv, size, j - 5, 10)[i]
  {
    if j < k - 1 {
      ColumnsAt(fv, size, k - 1, j, i);
    }
  }

  /** Tiles are written x-major, then y, then vertex: float c of vertex z of
      tile (x, y) sits at 300 (x + 5) + 30 (y + 5) + 5 z + c. Its x and y are
      the square's shifted by size / 5 per tile plus 100; its z and texture
      coordinates are the square's. */
  lemma LayoutEntry(fv: seq<real>, size: real, x: int, y: int, z: nat, c: nat)
    requires |fv| == SquareSize
    requires -5 <= x < 5 && -5 <= y < 5 && z < SquareVertices && c < 5
    ensures 300 * (x + 5) + 30 * (y + 5) + 5 * z + c < LayoutSize
    ensures Layout(fv, size)[300 * (x + 5) + 30 * (y + 5) + 5 * z + c] ==
            if c == 0 then fv[5 * z] + (size / 5.0) * (x as real) + 100.0
            else if c == 1 then fv[5 * z + 1] + (size / 5.0) * (y as real) + 100.0
            else fv[5 * z + c]
  {
    ColumnsAt(fv, size, 10, x + 5, 30 * (y + 5) + 5 * z + c);
    ColumnAt(fv, size, x, 10, y + 5, 5 * z + c);
    TileAt(fv, size, x, y, 6, z, c);
  }

  /** The layout loops, writing from a running counter. */
  method FillTile(a: array<real>, count: nat, fv: seq<real>, size: real, x: int, y: int)
    returns (next: nat)
    requires |fv| == SquareSize && count + 30 <= a.Length
    modifies a
    ensures next == count + 30
    ensures a[..next] == old(a[..count]) + Tile(fv, size, x, y, 6)
  {
    next := count;
    var z := 0;
    while z < 6
      invariant 0 <= z <= 6 && next == count + 5 * z
      invariant a[..next] == old(a[..count]) + Tile(fv, size, x, y, z)
    {
      a[next] := fv[z * 5] + (size / 5.0) * (x as real) + 100.0;
      a[next + 1] := fv[z * 5 + 1] + (size / 5.0) * (y as real) + 100.0;
      a[next + 2] := fv[z * 5 + 2];
      a[next + 3] := fv[z * 5 + 3];
      a[next + 4] := fv[z * 5 + 4];
      assert a[..next + 5] == a[..next] + TileVertex(fv, size, x, y, z);
      next := next + 5;
      z := z + 1;
    }
  }

  method FillColumn(a: array<real>, count: nat, fv: seq<real>, size: real, x: int)
    returns (next: nat)
    requires |fv| == SquareSize && count + 300 <= a.Length
    modifies a
    ensures next == count + 300
    ensures a[..next] == old(a[..count]) + Column(fv, size, x, 10)
  {
    next := count;
    var y := -5;
    while y < 5
      invariant -5 <= y <= 5 && next == count + 30 * (y + 5)
      invariant a[..next] == old(a[..count]) + Column(fv, size, x, y + 5)
    {
      next := FillTile(a, next, fv, size, x, y);
      y := y + 1;
    }
  }

  /** The state of the floor. */
  class Terrain {
    /** The square, scaled in place by setScale. */
    const floorVertices: array<real>
    /** The overall size. */
    var size: real
    /** The placement of the floor, as glm builder calls. */
    var adjust: Transform
    /** The tile buffer. */
    var floorLayout: array<real>

    predicate Valid()
      reads this
    {
      floorVertices.Length == SquareSize
    }

    /** The header's square and an identity placement. */
    constructor()
      ensures Valid() && floorVertices[..] == Square && adjust == Identity
    {
      floorVertices := new real[SquareSize](i requires 0 <= i < SquareSize => Square[i]);
      size := 0.0;
      adjust := Identity;
      floorLayout := new real[0];
      new;
      assert floorVertices[..] == Square;
    }

    /** setScale: records the size, scales the square's positions by
        value / 10, turns the floor a quarter turn about x and lowers it by
        99% of value, then lays out the 100 tiles. */
    method SetScale(value: real)
      requires Valid()
      modifies this, floorVertices
      ensures Valid() && size == value
      ensures floorVertices[..] == ScaledSquare(old(floorVertices[..]), value / 10.0)
      ensures adjust == Translate(Rotate(old(adjust), Pi / 2.0, Vec3(1.0, 0.0, 0.0)),
                                  Vec3(0.0, 0.0, -value + value * 0.01))
      ensures fresh(floorLayout)
      ensures floorLayout[..] == Layout(floorVertices[..], size)
    {
      size := value;
      ScaleSquare(value / 10.0);
      adjust := Rotate(adjust, Pi / 2.0, Vec3(1.0, 0.0, 0.0));
      adjust := Translate(adjust, Vec3(0.0, 0.0, -value + value * 0.01));
      floorLayout := FillLayout(floorVertices[..], size);
    }

    /** The scaling loop of setScale. */
    method ScaleSquare(k: real)
      requires Valid()
      modifies floorVertices
      ensures floorVertices[..] == ScaledSquare(old(floorVertices[..]), k)
    {
      var x := 0;
      while x < 6
        invariant 0 <= x <= 6
        invariant forall i :: 0 <= i < 5 * x ==>
                    floorVertices[i] == ScaledSquare(old(floorVertices[..]), k)[i]
        invariant forall i :: 5 * x <= i < SquareSize ==> floorVertices[i] == old(floorVertices[i])
      {
        floorVertices[x * 5] := floorVertices[x * 5] * k;
        floorVertices[x * 5 + 1] := floorVertices[x * 5 + 1] * k;
        floorVertices[x * 5 + 2] := floorVertices[x * 5 + 2] * k;
        x := x + 1;
      }
    }
  }

  /** The layout loop of setScale over a fresh buffer of 3000 floats. */
  method FillLayout(fv: seq<real>, size: real) returns (layout: array<real>)
    requires |fv| == SquareSize
    ensures fresh(layout)
    ensures layout[..] == Layout(fv, size)
  {
    layout := new real[LayoutSize];
    var count := 0;
    var x := -5;
    while x < 5
      invariant -5 <= x <= 5 && count == 300 * (x + 5)
      invariant layout[..count] == Columns(fv, size, x + 5)
    {
      count := FillColumn(layout, count, fv, size, x);
      x := x + 1;
    }
    assert layout[..] == layout[..count];
  }

  /** Scaling touches only positions: each position float is multiplied by
      k and each texture coordinate kept. */
  lemma ScaledSquareFacts(fv: seq<real>, k: real, z: nat)
    requires |fv| == SquareSize && z < SquareVertices
    ensures ScaledSquare(fv, k)[5 * z] == fv[5 * z] * k
    ensures ScaledSquare(fv, k)[5 * z + 1] == fv[5 * z + 1] * k
    ensures ScaledSquare(fv, k)[5 * z + 2] == fv[5 * z + 2] * k
    ensures ScaledSquare(fv, k)[5 * z + 3] == fv[5 * z + 3]
    ensures ScaledSquare(fv, k)[5 * z + 4] == fv[5 * z + 4]
  {
  }

  /** Neighbouring tiles along x are size / 5 apart: every float of tile
      (x + 1, y) equals that of tile (x, y), plus size / 5 on x. */
  lemma TilesAdjacent(fv: seq<real>, size: real, x: int, y: int, z: nat, c: nat)
    requires |fv| == SquareSize && -5 <= x < 4 && -5 <= y < 5 && z < SquareVertices && c < 5
    ensures Layout(fv, size)[300 * (x + 6) + 30 * (y + 5) + 5 * z + c] ==
            Layout(fv, size)[300 * (x + 5) + 30 * (y + 5) + 5 * z + c] +
            (if c == 0 then size / 5.0 else 0.0)
  {
    LayoutEntry(fv, size, x, y, z, c);
    LayoutEntry(fv, size, x + 1, y, z, c);
    assert 300 * (x + 1 + 5) == 300 * (x + 6);
  }
}
