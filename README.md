# Procedural terrain: grid triangulation and 2D gradient noise

This project models the two computational pieces of an OpenGL terrain
generator and proves properties of them in Dafny.

* **Terrain mesh synthesis** (`generateAdvancedTerrain`, module `Terrain`).
  The function walks a `width x height` grid in row-major order. For every
  grid point it appends five floats to the vertex buffer:
  * the planar position `x * scale - 0.5`,
  * a height that sums four octaves of a noise sampler,
  * the planar position `z * scale - 0.5`,
  * the texture coordinates `x / (width - 1)` and `z / (height - 1)`.

  For every cell whose top-left corner is the point, it appends two
  triangles (six indices) to the index buffer. Both buffers are passed by
  reference and only grow. The model takes each buffer's old contents as an
  input sequence and gives the grown buffer back.
* **Gradient noise** (class `PerlinNoise`, module `PerlinNoise`). This is a
  2D adaptation of Ken Perlin's improved noise. The constructor doubles a
  256-entry permutation into a 512-entry table `p`, filled in place in an
  array. `noise(x, y)` masks the cell coordinates with `& 255`. It hashes
  the four cell corners through the double lookup `p[p[X] + Y]`. It blends
  the corner gradients with the quintic `fade` curve and `lerp`, and remaps
  the result to `(r + 1) / 2`.

Modelling conventions:
* Floats are mathematical reals.
* C++ `n & 255` and `n & 3` on an `int` are written as `n % 256` and
  `n % 4`. Dafny's `%` is Euclidean, so these agree with two's-complement
  masking for negative `n` too.
* `unsigned int` indices are the newtype `u32`.
* The generic module `Grid` describes a buffer filled by two nested loops
  (blocks pushed point by point, row by row). It proves the layout facts
  once, for the vertex buffer and the index buffer alike.
* The octave loop is its own method, `LayeredHeight`. So are the vertex
  half and the index half of the loop body (`PushVertex`, `PushCell`) and
  the inner loop over one row (`PushTerrainRow`). Each is proved against a
  specification function, and `GenerateAdvancedTerrain` keeps the outer
  loop.

## Model

| member | source | states |
|---|---|---|
| Terrain.GenerateAdvancedTerrain | src/main.cpp:213-260 | The grown buffers are the old buffers followed by `TerrainVertices` and `TerrainIndices`, so earlier contents stay as an unchanged prefix. For an empty grid (a non-positive dimension) nothing is appended. |
| Terrain.PushTerrainRow | src/main.cpp:225-258 | After the inner loop over row z, each buffer has grown by exactly the blocks of points 0..width-1 of that row, in order. |
| Terrain.PushVertex | src/main.cpp:227-246 | Point (x, z) pushes exactly its five floats `Vertex(x, z)`: planar x, layered height, planar z, texture u, texture v. |
| Terrain.PushCell | src/main.cpp:248-257 | Point (x, z) pushes the six indices of `Cell(x, z)` when x < width-1 and z < height-1, and nothing otherwise. |
| Terrain.LayeredHeight | src/main.cpp:217-239 | The octave loop returns `Height`: the sum over i < 4 of `0.5 * 0.5^i * noise(x * 0.4 * 2^i, z * 0.4 * 2^i, 4, 0.5)`. The invariants carry amplitude = 0.5 * 0.5^k and frequency = 0.4 * 2^k. |
| Terrain.OctaveSumBounds | src/main.cpp:230-239 | If every octave samples a value in [0, 1], the height after k octaves lies in [0, 1 - 0.5^k]. |
| Terrain.HeightBounds | src/main.cpp:217-239 | If every octave samples a value in [0, 1], the four-octave height lies in [0, 0.9375]. |
| Terrain.TexCoord | src/main.cpp:245-246 | A texture coordinate of a grid line lies in [0, 1]. It is 0 on the first line and 1 on the last. |
| Terrain.PlanarCoordRange | src/main.cpp:215-228 | Every planar coordinate lies in [-0.5, 0.5]. The first grid line is at -0.5, and the last line of the larger dimension is exactly at 0.5. |
| Terrain.Vertex | src/main.cpp:241-246 | Every grid point contributes exactly five floats. |
| Terrain.Cell | src/main.cpp:250-256 | Every interior cell contributes exactly six indices. |
| Terrain.CellTriangles | src/main.cpp:250-256 | With s = z*width + x, the cell's triangles are (s, s+W, s+1) and (s+1, s+W, s+W+1). Within each triangle the corners are pairwise distinct. The two triangles share the edge {s+W, s+1}. The largest index is below width*height. |
| Terrain.CellBound | src/main.cpp:250-256 | For every interior cell, the farthest corner `start + width + 1` is at most width*height - 1, and the last cell (width-2, height-2) reaches width*height - 1 exactly. |
| Terrain.TerrainVertexCount | src/main.cpp:223-246 | The grid appends exactly 5 * width * height floats. |
| Terrain.TerrainVertexAt | src/main.cpp:223-246 | Grid point (x, z) occupies offsets 5*(z*width + x) through 5*(z*width + x) + 4 of the appended block, and they hold its vertex. |
| Terrain.TerrainIndexCount | src/main.cpp:248-257 | The grid appends exactly 6 * (width-1) * (height-1) indices. |
| Terrain.TerrainIndicesBounded | src/main.cpp:248-257 | Every appended index is below width*height. When both buffers start empty (as at src/main.cpp:81-83), each index names a vertex of this grid. Indices are not offset by earlier contents of the vertex buffer. |
| Terrain.TerrainCellAt | src/main.cpp:248-257 | Cell (x, z) occupies offsets 6*(z*(width-1) + x) through 6*(z*(width-1) + x) + 5 of the appended indices, and they hold its two triangles. |
| Grid.AppendRow | src/main.cpp:223-259 | One pass of the outer loop pushes row m onto a buffer that holds rows 0..m-1, and the buffer then holds rows 0..m. The buffer only grows at its end. |
| Grid.AppendBlock | src/main.cpp:225-258 | One pass of the inner loop pushes block n of a row onto a buffer that holds blocks 0..n-1, and the buffer then holds blocks 0..n. |
| Grid.GridAt | src/main.cpp:223-259 | Suppose that in each row the first `cols` blocks hold k items and the rest are empty. Then block (x, z) starts at offset k*(z*cols + x) of the row-major buffer. |
| Terrain.OctaveSum | src/main.cpp:230-239 | Has no contract of its own. It is the sum over i < k of 0.5 * 0.5^i times the octave sample at frequency 0.4 * 2^i. LayeredHeight is proved equal to it, and OctaveSumBounds states its range. |
| Terrain.Height | src/main.cpp:230-239 | Has no contract of its own. It is OctaveSum with four octaves. LayeredHeight returns it, and HeightBounds states its range. |
| Terrain.Scale | src/main.cpp:215 | The spacing lies in (0, 1], and max(width, height) - 1 steps of it span exactly 1. |
| Terrain.PlanarCoord | src/main.cpp:227-228 | Has no contract of its own. It is `i * scale - 0.5`, and PlanarCoordRange states its range and endpoints. |
| Terrain.TerrainVertices | src/main.cpp:223-259 | Has no contract of its own. It is the specification of the vertex buffer's growth. GenerateAdvancedTerrain is proved against it, and TerrainVertexCount and TerrainVertexAt state its length and contents. |
| Terrain.TerrainIndices | src/main.cpp:223-259 | Has no contract of its own. It is the specification of the index buffer's growth. GenerateAdvancedTerrain is proved against it, and TerrainIndexCount, TerrainCellAt and TerrainIndicesBounded state its length, contents and range. |
| PerlinNoise.PerlinNoise.constructor | src/PerlinNoise.cpp:14-20 | The table has 512 entries, all in [0, 255]. Both halves equal the permutation: p[i] == p[256 + i] == permutation[i]. |
| PerlinNoise.PerlinNoise.CornerHash | src/PerlinNoise.cpp:37-40 | For cell indices up to 256, the double lookup `p[p[i] + j]` reads inside the 512-entry table, and the hash lies in [0, 255]. |
| PerlinNoise.PerlinNoise.Noise | src/PerlinNoise.cpp:22-46 | Has no contract of its own. It masks the cell, hashes the four corners, blends them and remaps the result to (r + 1) / 2. NoiseAtLattice, NoisePeriodicX, NoisePeriodicY and NoiseDependsOnlyOnTable are the lemmas about it. |
| PerlinNoise.Blend | src/PerlinNoise.cpp:33-44 | Has no contract of its own. It eases the offsets with fade and takes the two-level lerp of the four corner gradients. NoiseAtLattice shows that it is 0 at a cell's corner. |
| PerlinNoise.PerlinNoise.NoiseAtLattice | src/PerlinNoise.cpp:22-46 | At every integer lattice point the noise is exactly 0.5. |
| PerlinNoise.PerlinNoise.NoisePeriodicX | src/PerlinNoise.cpp:25-30 | noise(x + 256, y) == noise(x, y). |
| PerlinNoise.PerlinNoise.NoisePeriodicY | src/PerlinNoise.cpp:25-30 | noise(x, y + 256) == noise(x, y). |
| PerlinNoise.PerlinNoise.NoiseDependsOnlyOnTable | src/PerlinNoise.cpp:22-46 | Two generators with equal tables give equal samples everywhere: sampling reads only the table's contents. |
| PerlinNoise.CellIndex | src/PerlinNoise.cpp:25-26 | The masked cell index lies in [0, 255] and is congruent to floor(c) modulo 256. |
| PerlinNoise.Frac | src/PerlinNoise.cpp:29-30 | The offset inside the cell lies in [0, 1), and c minus the offset is an integer. |
| PerlinNoise.ShiftByPeriod | src/PerlinNoise.cpp:25-30 | Shifting a coordinate by 256 changes neither its cell index nor its offset. |
| PerlinNoise.LatticePoint | src/PerlinNoise.cpp:25-30 | An integer coordinate n has offset 0 and cell index n mod 256. |
| PerlinNoise.Fade | src/PerlinNoise.cpp:52-55 | fade(0) == 0 and fade(1) == 1. |
| PerlinNoise.FadeSymmetric | src/PerlinNoise.cpp:52-55 | fade(1 - t) == 1 - fade(t). |
| PerlinNoise.FadeNonNegative | src/PerlinNoise.cpp:52-55 | fade(t) >= 0 for t >= 0. |
| PerlinNoise.FadeInUnit | src/PerlinNoise.cpp:52-55 | fade maps [0, 1] into [0, 1]. |
| PerlinNoise.Lerp | src/PerlinNoise.cpp:58-61 | lerp(0, a, b) == a and lerp(1, a, b) == b. For t in [0, 1] and a <= b the result lies in [a, b]. |
| PerlinNoise.Grad | src/PerlinNoise.cpp:64-70 | For hash & 3 = 0, 1, 2, 3 the gradient product is x+y, y-x, y-x and -x-y. |
| PerlinNoise.GradCasesOneAndTwoCoincide | src/PerlinNoise.cpp:66-69 | Hash values 1 and 2 select the same gradient, so only three distinct gradients are reachable. |
| PerlinNoise.GradLowBitsOnly | src/PerlinNoise.cpp:66 | The gradient depends only on the two low bits of the hash. |

## Left out

- src/ArcballCamera.cpp is not part of this model: it is camera state built on floating-point trigonometry and GLM calls.
- The rest of src/main.cpp is not part of this model: `main`, the input callbacks, `createShaderProgram`, `loadTexture`, `setupBuffers` and `checkOpenGLError` are GLFW, OpenGL and file I/O.
- src/UserPrompt.cpp and src/UserPrompt.h are not part of this model: they are console I/O, and `handleUserPrompt` is only declared.
- The four-argument `perlin.noise(x, y, octaves, persistence)` called by the terrain generator has no definition in the repository's sources. It is the function-typed parameter `Sampler`, and no octave loop is invented for it.
- The static permutation table in src/PerlinNoise.cpp shows only its first values. The constructor takes the 256 entries as an argument, each in [0, 255].
- IEEE single-precision rounding is not modelled: coordinates, heights, `fade`, `lerp` and the final remap are exact reals. Nothing is claimed about bit-exact results.
- The claim that `noise` lies in [0, 1] is only a comment in the source and is not proved.
- GenerateAdvancedTerrain: requires the grid to be empty (a non-positive dimension) or at least 2 x 2. With a dimension of exactly 1 and the other positive, the source divides 0 by 0 for a texture coordinate, or computes an infinite scale, and reals have no NaN or infinity.
- GenerateAdvancedTerrain: requires width * height <= 2^31. Every index `start + width + 1` then fits a signed `int`; beyond that the source's `int` arithmetic overflows.
- PerlinNoise.CellIndex: `(int)std::floor(c)` is taken as the exact floor. The out-of-range float-to-int conversion for |c| >= 2^31 is not modelled.
- Buffer reallocation and the by-reference identity of the two vectors are not modelled. Each vector is a value that goes in and comes back grown; the two have different element types, so they cannot alias.
- Undo or parameter history, normal estimation, seeded permutation shuffling and other noise variants (ridged, billow, cellular) appear in no modelled source file.
