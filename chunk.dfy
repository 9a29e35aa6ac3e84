/**
 * One chunk of the voxel world: a fixed 16 x 64 x 16 grid of blocks at a
 * position in the chunk grid, its bounds-checked accessors, and the
 * height-map terrain generator that fills it.
 */
module Chunk {
  import opened Block
  import opened Wrappers

  /** Width and depth of a chunk, in blocks. */
  const ChunkSize: nat := 16
  /** Height of a chunk, in blocks. */
  const ChunkHeight: nat := 64

  const MinInt32: int := -0x8000_0000
  const MaxInt32: int := 0x7fff_ffff

  /** A signed 32-bit integer, the type of the chunk position components. */
  type Int32 = v: int | MinInt32 <= v <= MaxInt32

  /** True when (x, y, z) addresses a cell of the grid. */
  predicate InChunk(x: nat, y: nat, z: nat) {
    x < ChunkSize && y < ChunkHeight && z < ChunkSize
  }

  /**
   * Two's-complement wrap-around of an integer into 32 bits: the unique
   * Int32 congruent to v modulo 2^32.
   */
  function WrapInt32(v: int): (r: Int32)
    ensures (v - r) % 0x1_0000_0000 == 0
    ensures MinInt32 <= v <= MaxInt32 ==> r == v
  {
    (v + 0x8000_0000) % 0x1_0000_0000 - 0x8000_0000
  }

  /**
   * The world column coordinate `chunk * CHUNK_SIZE + local`, computed in
   * 32-bit arithmetic that wraps on overflow: congruent to the exact value
   * modulo 2^32, and equal to it for chunk coordinates in [-2^27, 2^27).
   */
  function WorldCoord(chunk: Int32, local: nat): (w: Int32)
    requires local < ChunkSize
    ensures (chunk * ChunkSize + local - w) % 0x1_0000_0000 == 0
    ensures -0x800_0000 <= chunk < 0x800_0000 ==> w == chunk * ChunkSize + local
  {
    WrapInt32(chunk * ChunkSize + local)
  }

  /**
   * The world coordinate is exact (does not wrap) precisely when the chunk
   * coordinate lies in [-2^27, 2^27).
   */
  lemma WorldCoordExact(chunk: Int32, local: nat)
    requires local < ChunkSize
    ensures WorldCoord(chunk, local) == chunk * ChunkSize + local
        <==> -0x800_0000 <= chunk < 0x800_0000
  {
  }

  /**
   * The height of column (x, z) of a chunk at `position`: the oracle's
   * height at the world column, capped at the top cell of the chunk.
   */
  function ColumnHeight(position: (Int32, Int32), x: nat, z: nat, oracle: (int, int) -> nat): (h: nat)
    requires x < ChunkSize && z < ChunkSize
    ensures h < ChunkHeight
    ensures var raw := oracle(WorldCoord(position.0, x), WorldCoord(position.1, z));
      h <= raw && (h == raw || h == ChunkHeight - 1)
  {
    var raw := oracle(WorldCoord(position.0, x), WorldCoord(position.1, z));
    if raw < ChunkHeight - 1 then raw else ChunkHeight - 1
  }

  /** One more than the largest value of the target's unsigned pointer-sized integer. */
  const UsizeModulus: nat := 0x1_0000_0000_0000_0000

  /**
   * Wrap-around of an integer into the unsigned pointer-sized range: the
   * unique value in [0, 2^64) congruent to v modulo 2^64.
   */
  function WrapUsize(v: int): (r: nat)
    ensures r < UsizeModulus
    ensures (v - r) % UsizeModulus == 0
    ensures 0 <= v < UsizeModulus ==> r == v
  {
    v % UsizeModulus
  }

  /**
   * The block the generator writes at height y of a column whose surface is
   * at h. The source tests `y > h - 3` on unsigned integers; the subtraction
   * is evaluated only when y < h, and for h = 1 or h = 2 it wraps to a huge
   * value, so the test fails and every cell below the surface is stone.
   */
  function LayerBlock(y: nat, h: nat): (b: BlockType)
    requires h < UsizeModulus
    ensures y == h ==> b == Grass
    ensures y < h && h < y + 3 && h >= 3 ==> b == Dirt
    ensures y < h && y + 3 <= h ==> b == Stone
    ensures y < h < 3 ==> b == Stone
  {
    if y == h then Grass else if y > WrapUsize(h - 3) then Dirt else Stone
  }

  /**
   * The content of cell y of a generated column with surface h, given what
   * the cell held before: the layer block up to h, the old content above.
   */
  function TerrainCell(prev: BlockType, y: nat, h: nat): BlockType
    requires h < UsizeModulus
  {
    if y <= h then LayerBlock(y, h) else prev
  }

  /** n copies of block b. */
  function Repeat(b: BlockType, n: nat): (s: seq<BlockType>)
    ensures |s| == n
    ensures forall i | 0 <= i < n :: s[i] == b
  {
    if n == 0 then [] else [b] + Repeat(b, n - 1)
  }

  /**
   * The full column, bottom to top, that generation leaves in a freshly
   * created chunk: stone, two dirt (none when h < 3, where the unsigned
   * subtraction wraps), one grass at h, air up to the top.
   */
  function ColumnProfile(h: nat): (col: seq<BlockType>)
    requires h < ChunkHeight
    ensures |col| == ChunkHeight
  {
    if h >= 3 then Repeat(Stone, h - 2) + [Dirt, Dirt, Grass] + Repeat(Air, ChunkHeight - 1 - h)
    else Repeat(Stone, h) + [Grass] + Repeat(Air, ChunkHeight - 1 - h)
  }

  /** Generating a column of air cells gives exactly `ColumnProfile(h)`. */
  lemma FreshColumnIsProfile(h: nat, y: nat)
    requires h < ChunkHeight
    requires y < ChunkHeight
    ensures TerrainCell(Air, y, h) == ColumnProfile(h)[y]
  {
  }

  /** A profile column holds grass at h and nowhere else, and air exactly above h. */
  lemma ProfileHasOneSurface(h: nat, y: nat)
    requires h < ChunkHeight
    requires y < ChunkHeight
    ensures ColumnProfile(h)[y] == Grass <==> y == h
    ensures ColumnProfile(h)[y] == Air <==> y > h
  {
  }

  /** Largest value of the target's unsigned pointer-sized integer. */
  const UsizeMax: nat := 0xffff_ffff_ffff_ffff

  /**
   * A float-to-unsigned cast on real numbers: negative values give 0, values
   * beyond the range give the maximum, the rest are truncated.
   */
  function SaturatingCast(v: real): (r: nat)
    ensures r <= UsizeMax
    ensures v <= 0.0 ==> r == 0
    ensures v >= UsizeMax as real ==> r == UsizeMax
    ensures 0.0 <= v < UsizeMax as real ==> r as real <= v < r as real + 1.0
  {
    if v <= 0.0 then 0 else if v >= UsizeMax as real then UsizeMax else v.Floor
  }

  /**
   * The height the source derives from a noise sample, `(noise + 1) * 10 + 10`
   * cast to an unsigned integer, before capping at the chunk height.
   */
  function HeightFromNoise(noise: real): (h: nat)
    ensures -1.0 <= noise ==> h >= 10
    ensures -1.0 <= noise <= 1.0 ==> 10 <= h <= 30
  {
    SaturatingCast((noise + 1.0) * 10.0 + 10.0)
  }

  /**
   * The height oracle of a noise source sampled at 0.01 times the world
   * coordinates. Wherever the sample is at least -1, the height is at least
   * 10, so the wrapping subtraction of `LayerBlock` never arises.
   */
  function NoiseOracle(noise: (real, real) -> real): (o: (int, int) -> nat)
    ensures forall wx, wz :: noise(wx as real * 0.01, wz as real * 0.01) >= -1.0 ==> o(wx, wz) >= 10
  {
    (wx: int, wz: int) => HeightFromNoise(noise(wx as real * 0.01, wz as real * 0.01))
  }

  class Chunk {
    /** The cells, indexed [x, y, z]. */
    const blocks: array3<BlockType>
    /** The position of the chunk in the chunk grid. */
    var position: (Int32, Int32)

    /** The grid has the fixed chunk extents. */
    ghost predicate Valid() {
      blocks.Length0 == ChunkSize && blocks.Length1 == ChunkHeight && blocks.Length2 == ChunkSize
    }

    /** A new chunk at `position`, every cell air. */
    constructor (position: (Int32, Int32))
      ensures Valid() && fresh(blocks)
      ensures this.position == position
      ensures forall x: nat, y: nat, z: nat | InChunk(x, y, z) :: blocks[x, y, z] == Air
    {
      blocks := new BlockType[ChunkSize, ChunkHeight, ChunkSize]((x, y, z) => Air);
      this.position := position;
    }

    /** The block at local (x, y, z), or None when any coordinate is out of range. */
    function GetBlock(x: nat, y: nat, z: nat): (r: Option<BlockType>)
      requires Valid()
      reads blocks
      ensures r == None <==> x >= ChunkSize || y >= ChunkHeight || z >= ChunkSize
      ensures InChunk(x, y, z) ==> r == Some(blocks[x, y, z])
    {
      if x >= ChunkSize || y >= ChunkHeight || z >= ChunkSize then None
      else Some(blocks[x, y, z])
    }

    /**
     * Writes `block` at local (x, y, z) and reports true; out of range it
     * changes nothing and reports false. The position is never touched.
     */
    method SetBlock(x: nat, y: nat, z: nat, block: BlockType) returns (ok: bool)
      requires Valid()
      modifies blocks
      ensures ok <==> InChunk(x, y, z)
      ensures forall i: nat, j: nat, k: nat | InChunk(i, j, k) ::
        blocks[i, j, k] == if ok && i == x && j == y && k == z then block else old(blocks[i, j, k])
    {
      if x >= ChunkSize || y >= ChunkHeight || z >= ChunkSize {
        return false;
      }
      blocks[x, y, z] := block;
      return true;
    }

    /**
     * Fills every column (x, z) from y = 0 up to its height h (see
     * `ColumnHeight`) with stone, two cells of dirt and grass on top (no dirt
     * when h is 1 or 2, see `LayerBlock`); cells above h keep their content. `oracle` stands for sampling the noise
     * source at the world column and converting the sample to a height.
     */
    method GenerateTerrain(oracle: (int, int) -> nat)
      requires Valid()
        modifies blocks
      ensures forall x: nat, y: nat, z: nat | InChunk(x, y, z) ::
        blocks[x, y, z] == TerrainCell(old(blocks[x, y, z]), y, ColumnHeight(position, x, z, oracle))
      ensures forall x: nat, y: nat, z: nat | InChunk(x, y, z) ::
        var h := ColumnHeight(position, x, z, oracle);
        (y == h ==> blocks[x, y, z] == Grass) &&
        (h >= 3 && h - 3 < y < h ==> blocks[x, y, z] == Dirt) &&
        (y < h && (h < 3 || y <= h - 3) ==> blocks[x, y, z] == Stone) &&
        (y > h ==> blocks[x, y, z] == old(blocks[x, y, z]))
    {
      var chunkX, chunkZ := position.0, position.1;
      for x := 0 to ChunkSize
        invariant forall i: nat, j: nat, k: nat | InChunk(i, j, k) ::
          blocks[i, j, k] == if i < x
            then TerrainCell(old(blocks[i, j, k]), j, ColumnHeight(position, i, k, oracle))
            else old(blocks[i, j, k])
      {
        for z := 0 to ChunkSize
          invariant forall i: nat, j: nat, k: nat | InChunk(i, j, k) ::
            blocks[i, j, k] == if i < x || (i == x && k < z)
              then TerrainCell(old(blocks[i, j, k]), j, ColumnHeight(position, i, k, oracle))
              else old(blocks[i, j, k])
        {
          var worldX := WorldCoord(chunkX, x);
          var worldZ := WorldCoord(chunkZ, z);
          var height := oracle(worldX, worldZ);
          height := if height < ChunkHeight - 1 then height else ChunkHeight - 1;
          assert height == ColumnHeight(position, x, z, oracle);
          for y := 0 to height + 1
            invariant forall i: nat, j: nat, k: nat | InChunk(i, j, k) ::
              blocks[i, j, k] == if i < x || (i == x && k < z) || (i == x && k == z && j < y)
                then TerrainCell(old(blocks[i, j, k]), j, ColumnHeight(position, i, k, oracle))
                else old(blocks[i, j, k])
          {
            var block := LayerBlock(y, height);
            var ok := SetBlock(x, y, z, block);
            assert ok;
          }
        }
      }
    }
  }

  /** The unit test on creation: position (0, 0), air at the origin. */
  method CreationExample() returns (position: (Int32, Int32), origin: Option<BlockType>)
    ensures position == (0, 0)
    ensures origin == Some(Air)
  {
    var c := new Chunk((0, 0));
    position := c.position;
    origin := c.GetBlock(0, 0, 0);
  }

  /** The unit test on writing: setting stone at (5, 10, 7) succeeds and reads back. */
  method SetAndGetExample() returns (ok: bool, read: Option<BlockType>)
    ensures ok
    ensures read == Some(Stone)
  {
    var c := new Chunk((0, 0));
    ok := c.SetBlock(5, 10, 7, Stone);
    read := c.GetBlock(5, 10, 7);
  }

  /** The unit test on bounds: one past the width and one past the height read None. */
  method OutOfBoundsExample() returns (pastWidth: Option<BlockType>, pastHeight: Option<BlockType>)
    ensures pastWidth == None
    ensures pastHeight == None
  {
    var c := new Chunk((0, 0));
    pastWidth := c.GetBlock(ChunkSize, 0, 0);
    pastHeight := c.GetBlock(0, ChunkHeight, 0);
  }

  /** A set followed by a get at the same coordinates reads back what was written. */
  method SetThenGet(c: Chunk, x: nat, y: nat, z: nat, block: BlockType) returns (ok: bool, read: Option<BlockType>)
    requires c.Valid()
    modifies c.blocks
    ensures ok <==> InChunk(x, y, z)
    ensures read == if ok then Some(block) else None
  {
    ok := c.SetBlock(x, y, z, block);
    read := c.GetBlock(x, y, z);
  }

  /**
   * A new chunk with generated terrain: every column is exactly the profile
   * of its height, so grass appears once per column and air above it.
   */
  method NewTerrainChunk(position: (Int32, Int32), oracle: (int, int) -> nat) returns (c: Chunk)
    ensures c.Valid() && fresh(c.blocks) && c.position == position
    ensures forall x: nat, y: nat, z: nat | InChunk(x, y, z) ::
      c.blocks[x, y, z] == ColumnProfile(ColumnHeight(position, x, z, oracle))[y]
  {
    c := new Chunk(position);
    c.GenerateTerrain(oracle);
    forall x: nat, y: nat, z: nat | InChunk(x, y, z)
      ensures c.blocks[x, y, z] == ColumnProfile(ColumnHeight(position, x, z, oracle))[y]
    {
      FreshColumnIsProfile(ColumnHeight(position, x, z, oracle), y);
    }
  }

  /** Generating the same position twice with the same oracle gives identical grids. */
  method GenerationIsDeterministic(position: (Int32, Int32), oracle: (int, int) -> nat) returns (a: Chunk, b: Chunk)
    ensures a.Valid() && b.Valid() && a.blocks != b.blocks
    ensures forall x: nat, y: nat, z: nat | InChunk(x, y, z) :: a.blocks[x, y, z] == b.blocks[x, y, z]
  {
    a := NewTerrainChunk(position, oracle);
    b := NewTerrainChunk(position, oracle);
  }
}
