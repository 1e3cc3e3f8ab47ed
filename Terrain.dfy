/**
 * Heightfield mesh synthesis: `generateAdvancedTerrain` walks a width x height
 * grid in row-major order, appends five floats per grid point (x, height, z,
 * u, v) to a vertex buffer and six indices per interior cell (two triangles)
 * to an index buffer. Both buffers are passed by reference and only grow; the
 * model takes each buffer's old contents in and gives the grown buffer back.
 * Floats are modelled as reals.
 */
module Terrain {

  import Grid

  /** An `unsigned int` element of the index buffer. */
  newtype u32 = n: int | 0 <= n < 0x1_0000_0000

  /** Largest value of a C++ `int`, plus one. */
  const IntLimit: int := 0x8000_0000

  /**
   * The four-argument sampler `noise(x, y, octaves, persistence)` that the
   * terrain generator calls; its definition is not part of this model, so it
   * is a parameter.
   */
  type Sampler = (real, real, int, real) -> real

  const NumOctaves: nat := 4
  const Persistence: real := 0.5
  const Lacunarity: real := 2.0
  const BaseAmplitude: real := 0.5
  const BaseFrequency: real := 0.4

  function Pow(b: real, k: nat): real
  {
    if k == 0 then 1.0 else b * Pow(b, k - 1)
  }

  /** Amplitude of octave `i`: the base amplitude scaled by persistence^i. */
  function Amplitude(i: nat): real
  {
    BaseAmplitude * Pow(Persistence, i)
  }

  /** Frequency of octave `i`: the base frequency scaled by lacunarity^i. */
  function Frequency(i: nat): real
  {
    BaseFrequency * Pow(Lacunarity, i)
  }

  /** The sample taken by octave `i` at planar position (xPos, zPos). */
  function OctaveSample(noise: Sampler, xPos: real, zPos: real, i: nat): real
  {
    noise(xPos * Frequency(i), zPos * Frequency(i), NumOctaves, Persistence)
  }

  /** Height after the first `k` octaves: the sum over i < k of Amplitude(i) * OctaveSample(i). */
  function OctaveSum(noise: Sampler, xPos: real, zPos: real, k: nat): real
  {
    if k == 0 then 0.0
    else OctaveSum(noise, xPos, zPos, k - 1) + Amplitude(k - 1) * OctaveSample(noise, xPos, zPos, k - 1)
  }

  /** Height of the terrain at planar position (xPos, zPos). */
  function Height(noise: Sampler, xPos: real, zPos: real): real
  {
    OctaveSum(noise, xPos, zPos, NumOctaves)
  }

  /** The octave loop: accumulate, then halve the amplitude and double the frequency. */
  method LayeredHeight(noise: Sampler, xPos: real, zPos: real) returns (heightValue: real)
    ensures heightValue == Height(noise, xPos, zPos)
  {
    heightValue := 0.0;
    var amplitude := BaseAmplitude;
    var frequency := BaseFrequency;
    var octave := 0;
    while octave < NumOctaves
      invariant 0 <= octave <= NumOctaves
      invariant amplitude == Amplitude(octave)
      invariant frequency == Frequency(octave)
      invariant heightValue == OctaveSum(noise, xPos, zPos, octave)
    {
      var xf, zf := xPos * frequency, zPos * frequency;
      assert xf == xPos * Frequency(octave) && zf == zPos * Frequency(octave);
      assert noise(xf, zf, NumOctaves, Persistence) == OctaveSample(noise, xPos, zPos, octave);
      heightValue := heightValue + amplitude * noise(xPos * frequency, zPos * frequency, NumOctaves, Persistence);
      amplitude := amplitude * Persistence;
      frequency := frequency * Lacunarity;
      octave := octave + 1;
    }
  }

  /**
   * When every octave samples a value in [0, 1], the height after k octaves
   * lies in [0, 1 - 0.5^k]; with the four octaves used that is [0, 0.9375].
   */
  lemma {:induction false} OctaveSumBounds(noise: Sampler, xPos: real, zPos: real, k: nat)
    requires forall i :: 0 <= i < k ==> 0.0 <= OctaveSample(noise, xPos, zPos, i) <= 1.0
    ensures 0.0 <= OctaveSum(noise, xPos, zPos, k) <= 1.0 - Pow(Persistence, k)
  {
    if k > 0 {
      OctaveSumBounds(noise, xPos, zPos, k - 1);
      var s := OctaveSample(noise, xPos, zPos, k - 1);
      var a := Amplitude(k - 1);
      PowHalfPositive(k - 1);
      assert 0.0 <= a * s <= a;
      assert Pow(Persistence, k) == Pow(Persistence, k - 1) - a;
      assert OctaveSum(noise, xPos, zPos, k) == OctaveSum(noise, xPos, zPos, k - 1) + a * s;
    }
  }

  lemma {:induction false} PowHalfPositive(k: nat)
    ensures 0.0 < Pow(Persistence, k)
  {
    if k > 0 {
      PowHalfPositive(k - 1);
    }
  }

  /** The four octaves together weigh 0.5 + 0.25 + 0.125 + 0.0625. */
  lemma HeightBounds(noise: Sampler, xPos: real, zPos: real)
    requires forall i :: 0 <= i < NumOctaves ==> 0.0 <= OctaveSample(noise, xPos, zPos, i) <= 1.0
    ensures 0.0 <= Height(noise, xPos, zPos) <= 0.9375
  {
    OctaveSumBounds(noise, xPos, zPos, NumOctaves);
  }

  function Max(a: int, b: int): int
  {
    if a >= b then a else b
  }

  /** Grid spacing `1 / (max(width, height) - 1)`: the larger side spans exactly one unit. */
  function Scale(width: int, height: int): (s: real)
    requires 2 <= width && 2 <= height
    ensures 0.0 < s <= 1.0
    ensures s * ((Max(width, height) - 1) as real) == 1.0
  {
    1.0 / ((Max(width, height) - 1) as real)
  }

  /** Planar coordinate `i * scale - 0.5` of grid line `i`. */
  function PlanarCoord(width: int, height: int, i: int): real
    requires 2 <= width && 2 <= height
  {
    (i as real) * Scale(width, height) - 0.5
  }

  /** Texture coordinate `i / (n - 1)` of grid line `i` out of `n`. */
  function TexCoord(i: int, n: int): (t: real)
    requires 2 <= n
    ensures 0 <= i <= n - 1 ==> 0.0 <= t <= 1.0
    ensures i == 0 ==> t == 0.0
    ensures i == n - 1 ==> t == 1.0
  {
    (i as real) / ((n - 1) as real)
  }

  /**
   * Every grid line lies in [-0.5, 0.5]; the first is at -0.5 and the last
   * line of the larger dimension is exactly at 0.5.
   */
  lemma PlanarCoordRange(width: int, height: int, i: int)
    requires 2 <= width && 2 <= height
    requires 0 <= i <= Max(width, height) - 1
    ensures -0.5 <= PlanarCoord(width, height, i) <= 0.5
    ensures i == 0 ==> PlanarCoord(width, height, i) == -0.5
    ensures i == Max(width, height) - 1 ==> PlanarCoord(width, height, i) == 0.5
  {
    var s := Scale(width, height);
    var m := (Max(width, height) - 1) as real;
    assert 0.0 < s && s * m == 1.0;
    assert 0.0 <= (i as real) * s;
    assert (m - i as real) * s >= 0.0;
    assert (i as real) * s == m * s - (m - i as real) * s;
  }

  /** The five floats of grid point (x, z): position (x, height, z) and texture coordinates (u, v). */
  function Vertex(noise: Sampler, width: int, height: int, x: int, z: int): (v: seq<real>)
    requires 2 <= width && 2 <= height
    ensures |v| == 5
  {
    var xPos := PlanarCoord(width, height, x);
    var zPos := PlanarCoord(width, height, z);
    [xPos, Height(noise, xPos, zPos), zPos, TexCoord(x, width), TexCoord(z, height)]
  }

  /** The six indices of the cell whose top-left point is (x, z): triangles (s, s+W, s+1) and (s+1, s+W, s+W+1). */
  function Cell(width: int, height: int, x: int, z: int): (c: seq<u32>)
    requires 2 <= width && 2 <= height && width * height <= IntLimit
    requires 0 <= x < width - 1 && 0 <= z < height - 1
    ensures |c| == 6
  {
    CellBound(width, height, x, z);
    var start := z * width + x;
    [start as u32, (start + width) as u32, (start + 1) as u32,
     (start + 1) as u32, (start + width) as u32, (start + width + 1) as u32]
  }

  /**
   * Each cell's two triangles are (s, s+W, s+1) and (s+1, s+W, s+W+1) with
   * s = z * width + x: every index is below width * height, the corners of
   * each triangle are pairwise distinct, and the triangles share the edge
   * {s+W, s+1}.
   */
  lemma CellTriangles(width: int, height: int, x: int, z: int)
    requires 2 <= width && 2 <= height && width * height <= IntLimit
    requires 0 <= x < width - 1 && 0 <= z < height - 1
    ensures var c := Cell(width, height, x, z);
      && c[0] as int == z * width + x
      && c[0] < c[2] < c[1] < c[5] && (c[5] as int) < width * height
      && c[0] != c[1] && c[1] != c[2] && c[0] != c[2]
      && c[3] != c[4] && c[4] != c[5] && c[3] != c[5]
      && c[3] == c[2] && c[4] == c[1]
  {
    CellBound(width, height, x, z);
  }

  /**
   * The farthest corner of any cell, `start + width + 1`, is at most
   * width * height - 1, and the last cell (width - 2, height - 2) reaches it.
   */
  lemma CellBound(width: int, height: int, x: int, z: int)
    requires 2 <= width && 0 <= x < width - 1 && 0 <= z < height - 1
    ensures 0 <= z * width + x
    ensures z * width + x + width + 1 <= width * height - 1
    ensures x == width - 2 && z == height - 2 ==> z * width + x + width + 1 == width * height - 1
  {
    assert z * width <= (height - 2) * width;
    if x == width - 2 && z == height - 2 {
      assert z * width == width * height - 2 * width;
    }
  }

  /** The five floats the loop body pushes for point (x, z) are that point's vertex. */
  lemma PointVertex(noise: Sampler, width: int, height: int, x: int, z: int, scale: real, heightValue: real)
    requires 2 <= width && 2 <= height
    requires scale == 1.0 / ((Max(width, height) - 1) as real)
    requires heightValue == Height(noise, (x as real) * scale - 0.5, (z as real) * scale - 0.5)
    ensures [(x as real) * scale - 0.5, heightValue, (z as real) * scale - 0.5,
             (x as real) / ((width - 1) as real), (z as real) / ((height - 1) as real)]
            == Vertex(noise, width, height, x, z)
  {
    var xPos, zPos := PlanarCoord(width, height, x), PlanarCoord(width, height, z);
    assert scale == Scale(width, height);
    assert (x as real) * scale - 0.5 == xPos && (z as real) * scale - 0.5 == zPos;
    assert Vertex(noise, width, height, x, z) == [xPos, Height(noise, xPos, zPos), zPos, TexCoord(x, width), TexCoord(z, height)];
  }

  /**
   * The loop body's vertex half: planar position, layered height and texture
   * coordinates of point (x, z), pushed as five floats.
   */
  method PushVertex(noise: Sampler, width: int, height: int, x: int, z: int, scale: real, vertices: seq<real>)
    returns (verticesOut: seq<real>)
    requires 2 <= width && 2 <= height
    requires scale == 1.0 / ((Max(width, height) - 1) as real)
    ensures verticesOut == vertices + VertexBlock(noise, width, height)(x, z)
  {
    var xPos := (x as real) * scale - 0.5;
    var zPos := (z as real) * scale - 0.5;
    var heightValue := LayeredHeight(noise, xPos, zPos);
    verticesOut := vertices + [xPos, heightValue, zPos];
    verticesOut := verticesOut + [(x as real) / ((width - 1) as real), (z as real) / ((height - 1) as real)];
    PointVertex(noise, width, height, x, z, scale, heightValue);
  }

  /** Block pushed to the vertex buffer at grid point (x, z): that point's five floats. */
  function VertexBlock(noise: Sampler, width: int, height: int): (int, int) -> seq<real>
    requires 2 <= width && 2 <= height
  {
    (x, z) => Vertex(noise, width, height, x, z)
  }

  /**
   * Block pushed to the index buffer at grid point (x, z): the six indices of
   * the cell whose top-left corner it is, or nothing on the last column and
   * the last row.
   */
  function CellBlock(width: int, height: int): (int, int) -> seq<u32>
    requires 2 <= width && 2 <= height && width * height <= IntLimit
  {
    (x, z) => if 0 <= x < width - 1 && 0 <= z < height - 1 then Cell(width, height, x, z) else []
  }

  /**
   * Grid sizes the model covers: an empty grid (a non-positive dimension, so
   * that one of the loops runs zero times), or at least two grid lines each
   * way with every point number below 2^31.
   */
  predicate Supported(width: int, height: int)
  {
    width <= 0 || height <= 0 || (2 <= width && 2 <= height && width * height <= IntLimit)
  }

  /** All vertex data of a width x height grid, in row-major order; none for an empty grid. */
  function TerrainVertices(noise: Sampler, width: int, height: int): seq<real>
    requires width <= 0 || height <= 0 || (2 <= width && 2 <= height)
  {
    if width <= 0 || height <= 0 then [] else Grid.Rows(VertexBlock(noise, width, height), width, height)
  }

  /** All indices of a width x height grid, cell by cell in row-major order; none for an empty grid. */
  function TerrainIndices(width: int, height: int): seq<u32>
    requires Supported(width, height)
  {
    if width <= 0 || height <= 0 then [] else Grid.Rows(CellBlock(width, height), width, height)
  }

  /**
   * The loop body's index half: when (x, z) is the top-left corner of a cell,
   * push the cell's two triangles as six indices; otherwise push nothing.
   */
  method PushCell(width: int, height: int, x: int, z: int, indices: seq<u32>) returns (indicesOut: seq<u32>)
    requires 2 <= width && 2 <= height && width * height <= IntLimit
    requires 0 <= x && 0 <= z
    ensures indicesOut == indices + CellBlock(width, height)(x, z)
  {
    indicesOut := indices;
    if x < width - 1 && z < height - 1 {
      CellBound(width, height, x, z);
      var start := z * width + x;
      indicesOut := indicesOut + [start as u32, (start + width) as u32, (start + 1) as u32];
      indicesOut := indicesOut + [(start + 1) as u32, (start + width) as u32, (start + width + 1) as u32];
      assert indicesOut == indices + Cell(width, height, x, z);
    }
  }

  /**
   * The inner loop over the points of row z: each point pushes its vertex and,
   * when it is the top-left corner of a cell, that cell's two triangles.
   */
  method PushTerrainRow(noise: Sampler, width: int, height: int, z: int, scale: real, vertices: seq<real>, indices: seq<u32>)
    returns (verticesOut: seq<real>, indicesOut: seq<u32>)
    requires 2 <= width && 2 <= height && width * height <= IntLimit
    requires 0 <= z
    requires scale == 1.0 / ((Max(width, height) - 1) as real)
    ensures verticesOut == vertices + Grid.Row(VertexBlock(noise, width, height), z, width)
    ensures indicesOut == indices + Grid.Row(CellBlock(width, height), z, width)
  {
    verticesOut, indicesOut := vertices, indices;
    var x := 0;
    while x < width
      invariant 0 <= x <= width
      invariant verticesOut == vertices + Grid.Row(VertexBlock(noise, width, height), z, x)
      invariant indicesOut == indices + Grid.Row(CellBlock(width, height), z, x)
    {
      verticesOut := PushVertex(noise, width, height, x, z, scale, verticesOut);
      indicesOut := PushCell(width, height, x, z, indicesOut);
      Grid.AppendBlock(VertexBlock(noise, width, height), vertices, z, x);
      Grid.AppendBlock(CellBlock(width, height), indices, z, x);
      x := x + 1;
    }
  }

  /**
   * Appends the terrain grid to `vertices` and its triangles to `indices`,
   * giving back the grown buffers: the old contents stay as a prefix.
   */
  method GenerateAdvancedTerrain(noise: Sampler, width: int, height: int, vertices: seq<real>, indices: seq<u32>)
    returns (verticesOut: seq<real>, indicesOut: seq<u32>)
    requires Supported(width, height)
    ensures verticesOut == vertices + TerrainVertices(noise, width, height)
    ensures indicesOut == indices + TerrainIndices(width, height)
  {
    verticesOut, indicesOut := vertices, indices;
    if width <= 0 || height <= 0 {
      // One of the loops runs zero times, so nothing is appended and the
      // scale (a float division by zero when max(width, height) is 1) is never used.
      return;
    }
    var scale := 1.0 / ((Max(width, height) - 1) as real);
    var z := 0;
    while z < height
      invariant 0 <= z <= height
      invariant verticesOut == vertices + Grid.Rows(VertexBlock(noise, width, height), width, z)
      invariant indicesOut == indices + Grid.Rows(CellBlock(width, height), width, z)
    {
      verticesOut, indicesOut := PushTerrainRow(noise, width, height, z, scale, verticesOut, indicesOut);
      Grid.AppendRow(VertexBlock(noise, width, height), vertices, width, z);
      Grid.AppendRow(CellBlock(width, height), indices, width, z);
      z := z + 1;
    }
  }

  /** Every row of the vertex buffer holds five floats per point. */
  lemma VertexRowLengths(noise: Sampler, width: int, height: int)
    requires 2 <= width && 2 <= height
    ensures forall z :: |Grid.Row(VertexBlock(noise, width, height), z, width)| == 5 * width
  {
    var f := VertexBlock(noise, width, height);
    forall z
      ensures |Grid.Row(f, z, width)| == 5 * width
    {
      Grid.RowLength(f, z, width, 5);
    }
  }

  /** Rows above the last hold six indices per cell; the last row holds none. */
  lemma CellRowLengths(width: int, height: int)
    requires 2 <= width && 2 <= height && width * height <= IntLimit
    ensures forall z :: 0 <= z < height - 1 ==> |Grid.Row(CellBlock(width, height), z, width)| == 6 * (width - 1)
    ensures |Grid.Row(CellBlock(width, height), height - 1, width)| == 0
  {
    var f := CellBlock(width, height);
    forall z | 0 <= z < height - 1
      ensures |Grid.Row(f, z, width)| == 6 * (width - 1)
    {
      Grid.RowLength(f, z, width - 1, 6);
      assert f(width - 1, z) == [];
    }
    Grid.RowLength(f, height - 1, width, 0);
  }

  /** The grid contributes exactly five floats per point. */
  lemma TerrainVertexCount(noise: Sampler, width: int, height: int)
    requires 2 <= width && 2 <= height
    ensures |TerrainVertices(noise, width, height)| == 5 * width * height
  {
    VertexRowLengths(noise, width, height);
    Grid.RowsLength(VertexBlock(noise, width, height), width, height, 5 * width);
  }

  /** Grid point (x, z) occupies offsets 5 * (z * width + x) through 5 * (z * width + x) + 4. */
  lemma TerrainVertexAt(noise: Sampler, width: int, height: int, x: int, z: int)
    requires 2 <= width && 2 <= height
    requires 0 <= x < width && 0 <= z < height
    ensures 0 <= 5 * (z * width + x) && 5 * (z * width + x) + 5 <= |TerrainVertices(noise, width, height)|
    ensures TerrainVertices(noise, width, height)[5 * (z * width + x) .. 5 * (z * width + x) + 5] == Vertex(noise, width, height, x, z)
  {
    var f := VertexBlock(noise, width, height);
    forall i, j | 0 <= i < width && 0 <= j < height
      ensures |f(i, j)| == if i < width then 5 else 0
    {
    }
    Grid.GridAt(f, width, height, width, height, 5, x, z);
  }

  /** The grid contributes exactly six indices per cell, (width - 1) * (height - 1) cells in all. */
  lemma TerrainIndexCount(width: int, height: int)
    requires 2 <= width && 2 <= height && width * height <= IntLimit
    ensures |TerrainIndices(width, height)| == 6 * (width - 1) * (height - 1)
  {
    var f := CellBlock(width, height);
    CellRowLengths(width, height);
    Grid.RowsLength(f, width, height - 1, 6 * (width - 1));
  }

  /** Every index names one of the width * height grid points. */
  lemma TerrainIndicesBounded(width: int, height: int)
    requires 2 <= width && 2 <= height && width * height <= IntLimit
    ensures forall k :: 0 <= k < |TerrainIndices(width, height)| ==> (TerrainIndices(width, height)[k] as int) < width * height
  {
    var f := CellBlock(width, height);
    var below := (i: u32) => (i as int) < width * height;
    forall x, z, k | 0 <= x < width && 0 <= z < height && 0 <= k < |f(x, z)|
      ensures below(f(x, z)[k])
    {
      CellTriangles(width, height, x, z);
    }
    Grid.RowsAll(f, width, height, below);
  }

  /** Cell (x, z) occupies offsets 6 * (z * (width - 1) + x) through 6 * (z * (width - 1) + x) + 5. */
  lemma TerrainCellAt(width: int, height: int, x: int, z: int)
    requires 2 <= width && 2 <= height && width * height <= IntLimit
    requires 0 <= x < width - 1 && 0 <= z < height - 1
    ensures 0 <= 6 * (z * (width - 1) + x) && 6 * (z * (width - 1) + x) + 6 <= |TerrainIndices(width, height)|
    ensures TerrainIndices(width, height)[6 * (z * (width - 1) + x) .. 6 * (z * (width - 1) + x) + 6] == Cell(width, height, x, z)
  {
    var f := CellBlock(width, height);
    forall i, j | 0 <= i < width && 0 <= j < height - 1
      ensures |f(i, j)| == if i < width - 1 then 6 else 0
    {
    }
    Grid.GridAt(f, width, height, width - 1, height - 1, 6, x, z);
  }
}
