# Voxel chunk store and terrain generator

A Dafny model of the voxel data model of a small voxel game: the closed
catalogue of block kinds with their solidity, transparency and colour
(`src/block.rs`), and the chunk, a fixed 16 x 64 x 16 grid of blocks at a
position in the chunk grid, with bounds-checked reads and writes and a
height-map terrain generator that fills every column with stone, two cells
of dirt and a grass surface (`src/chunk.rs`).

Files:

- `wrappers.dfy`: module `Wrappers`, the `Option` type `get_block` returns.
- `block.dfy`: module `Block`, the `BlockType` datatype, `IsSolid`,
  `IsTransparent`, `Color` and the lemmas about them.
- `chunk.dfy`: module `Chunk`, the extents, 32-bit wrapping arithmetic for
  world coordinates, the column-height and layering functions that specify
  the generator, and class `Chunk` over an `array3<BlockType>` with
  `GetBlock`, `SetBlock` and `GenerateTerrain`, followed by client methods
  that replay the unit tests and the properties built on them.

The noise source is not modelled. `GenerateTerrain` takes a height oracle,
a total function from a world column (x, z) to a natural number, standing
for "sample the noise at 0.01 times the world coordinates and convert the
sample to an unsigned height". The generator then caps that height at
`ChunkHeight - 1` exactly as the source does. The source's unsigned test
`y > height - 3` is evaluated only below the surface, so at height 0 the
column is a single grass cell; at heights 1 and 2 the subtraction
underflows. The model wraps it as a release build does, which makes every
cell below the surface stone. `HeightFromNoise` and `NoiseOracle` show on
real numbers that the source's formula `(noise + 1) * 10 + 10` gives at
least 10 whenever the noise is at least -1, so real noise never reaches
those heights.

World coordinates `chunk * 16 + local` are computed in 32-bit arithmetic.
The model wraps on overflow, as a release build does, here too. `WorldCoordExact`
gives the exact range of chunk coordinates where no wrap happens.

## Model

| member | source | states |
|---|---|---|
| `Block.IsSolid` | src/block.rs:13-15 | a block is solid exactly when it is grass, dirt or stone, so air and water are not |
| `Block.IsTransparent` | src/block.rs:18-20 | a block is transparent exactly when it is not grass, dirt or stone, that is, when it is air or water |
| `Block.Color` | src/block.rs:23-31 | every variant has a colour with components in [0, 1]; air is black, and no other variant is |
| `Block.ColorInjective` | src/block.rs:23-31 | no two variants share a colour |
| `Block.AllBlocksIsCatalogue` | src/block.rs:3-9 | the catalogue has exactly five variants, each listed once |
| `Block.TransparentIffNotSolid` | src/block.rs:13-20 | for every variant, transparency is the negation of solidity |
| `Block.SolidCount` | src/block.rs:13-20 | exactly three variants are solid and exactly two are transparent |
| `Block.SolidityExamples` | src/block.rs:39-44 | air and water are not solid; grass and stone are |
| `Block.TransparencyExamples` | src/block.rs:47-51 | air and water are transparent; grass is not |
| `Chunk.WrapInt32` | src/chunk.rs:49-50 | the wrapped value is the 32-bit integer congruent to the input modulo 2^32, and equals the input when it fits |
| `Chunk.WorldCoord` | src/chunk.rs:49-50 | the world coordinate is congruent to `chunk * 16 + local` modulo 2^32, and equal to it for chunk coordinates in [-2^27, 2^27) |
| `Chunk.WorldCoordExact` | src/chunk.rs:49-50 | the world coordinate `chunk * 16 + local` is exact if and only if the chunk coordinate is in [-2^27, 2^27) |
| `Chunk.ColumnHeight` | src/chunk.rs:59-60 | the column height is below the chunk height and is the minimum of the oracle height and `CHUNK_HEIGHT - 1` |
| `Chunk.SaturatingCast` | src/chunk.rs:59 | the float-to-unsigned cast gives 0 for non-positive values, the unsigned maximum for values at or above it, and truncates values in between |
| `Chunk.HeightFromNoise` | src/chunk.rs:58-59 | for noise of at least -1 the height is at least 10; for noise in [-1, 1] it lies in [10, 30] |
| `Chunk.NoiseOracle` | src/chunk.rs:53-59 | at every world column where the noise sample is at least -1, the height is at least 10 |
| `Chunk.WrapUsize` | src/chunk.rs:66 | unsigned subtraction wraps: the result is the value in [0, 2^64) congruent to the exact difference, and equal to it when that is in range |
| `Chunk.LayerBlock` | src/chunk.rs:64-70 | the surface cell is grass; for h >= 3 the two cells below it are dirt and the cells at or below h - 3 are stone; for h = 1 or 2 every cell below the surface is stone |
| `Chunk.ColumnProfile` | src/chunk.rs:63-72 | the closed form of a generated fresh column has exactly the chunk height |
| `Chunk.FreshColumnIsProfile` | src/chunk.rs:63-72 | a generated column of an all-air chunk is stone up to h - 3, dirt at h - 2 and h - 1, grass at h and air above (for h < 3: stone below h, grass at h, air above) |
| `Chunk.ProfileHasOneSurface` | src/chunk.rs:63-72 | in such a column grass occurs exactly at the surface height, and air exactly above it |
| `Chunk.Chunk.constructor` | src/chunk.rs:17-22 | the new chunk records the given position, has the fixed extents, and every cell is air |
| `Chunk.Chunk.GetBlock` | src/chunk.rs:25-30 | the result is None if and only if some coordinate is out of range; otherwise it is the stored cell; it reads only the grid |
| `Chunk.Chunk.SetBlock` | src/chunk.rs:33-39 | the result is true if and only if the coordinates are in range; then only the target cell changes, to the new block; otherwise nothing changes; the position is never changed |
| `Chunk.Chunk.GenerateTerrain` | src/chunk.rs:42-75 | with h the capped oracle height of column (x, z) at world coordinates `position * 16 + (x, z)`: cell h is grass, cells strictly between h - 3 and h are dirt, cells at or below h - 3 are stone (for h = 1 or 2, every cell below h), cells above h keep their old content; every write is in range; the position is unchanged |
| `Chunk.CreationExample` | src/chunk.rs:83-87 | a chunk created at (0, 0) has position (0, 0) and air at the origin |
| `Chunk.SetAndGetExample` | src/chunk.rs:90-94 | writing stone at (5, 10, 7) succeeds and reading it back gives stone |
| `Chunk.OutOfBoundsExample` | src/chunk.rs:97-101 | reading at x = CHUNK_SIZE or at y = CHUNK_HEIGHT gives None |
| `Chunk.SetThenGet` | src/chunk.rs:25-39 | a write followed by a read at the same coordinates gives the block written when in range, and None otherwise |
| `Chunk.NewTerrainChunk` | src/chunk.rs:42-75 | creating a chunk and generating its terrain leaves every column equal to the profile of its height |
| `Chunk.GenerationIsDeterministic` | src/chunk.rs:42-75 | two chunks generated at the same position with the same oracle hold identical grids |

## Left out

- The Perlin noise library and the sampling call (src/chunk.rs:53-56) are foreign code. The generator takes a height oracle instead.
- Chunk.HeightFromNoise: works on real numbers, not on 64-bit floats. It ignores rounding, and NaN (which the source's cast maps to 0).
- Chunk.LayerBlock: at heights 1 and 2 the model wraps the unsigned `height - 3`, as a release build does, and does not model the panic of a debug build. Noise of at least -1 never gives such heights (see `NoiseOracle`).
- Chunk.WorldCoord: the model wraps on 32-bit overflow, as a release build does. A debug build panics instead; the two agree on the range given by `WorldCoordExact`.
- Block.Color: components are exact real numbers, not 32-bit floats (0.2 is not exactly representable as a 32-bit float).
- The renderer, the window and input loop, the camera and the terrain statistics example are graphics, I/O and floating-point glue and are not part of this model.
