/**
 * The block catalogue: the five kinds of voxel a chunk cell can hold and
 * their fixed physical and display properties.
 */
module Block {

  /** One cell of the voxel world. The catalogue is closed: these five only. */
  datatype BlockType = Air | Grass | Dirt | Stone | Water

  /** Every variant of the catalogue, each exactly once, in declaration order. */
  const AllBlocks: seq<BlockType> := [Air, Grass, Dirt, Stone, Water]

  /** A display colour: red, green and blue components. */
  datatype Rgb = Rgb(red: real, green: real, blue: real)

  /** True when the block occupies space: everything except air and water. */
  function IsSolid(b: BlockType): (r: bool)
    ensures r <==> b == Grass || b == Dirt || b == Stone
  {
    !(b == Air || b == Water)
  }

  /** True when one can see through the block: air and water. */
  function IsTransparent(b: BlockType): (r: bool)
    ensures r <==> !(b == Grass || b == Dirt || b == Stone)
  {
    b == Air || b == Water
  }

  /**
   * The fixed colour of each variant. Every component lies in [0, 1], air is
   * the black sentinel, and no other variant is black.
   */
  function Color(b: BlockType): (c: Rgb)
    ensures 0.0 <= c.red <= 1.0 && 0.0 <= c.green <= 1.0 && 0.0 <= c.blue <= 1.0
    ensures c == Rgb(0.0, 0.0, 0.0) <==> b == Air
  {
    match b
    case Air => Rgb(0.0, 0.0, 0.0)
    case Grass => Rgb(0.2, 0.8, 0.2)
    case Dirt => Rgb(0.6, 0.4, 0.2)
    case Stone => Rgb(0.5, 0.5, 0.5)
    case Water => Rgb(0.2, 0.4, 0.8)
  }

  /** `AllBlocks` lists the whole catalogue without repetition. */
  lemma AllBlocksIsCatalogue(b: BlockType)
    ensures b in AllBlocks
    ensures |AllBlocks| == 5
    ensures forall i, j :: 0 <= i < j < |AllBlocks| ==> AllBlocks[i] != AllBlocks[j]
  {
  }

  /** In this catalogue transparency is exactly the absence of solidity. */
  lemma TransparentIffNotSolid(b: BlockType)
    ensures IsTransparent(b) == !IsSolid(b)
  {
  }

  /** Two different variants never share a colour. */
  lemma ColorInjective(a: BlockType, b: BlockType)
    ensures Color(a) == Color(b) ==> a == b
  {
  }

  /** The unit test on solidity: air and water are not solid, grass and stone are. */
  lemma SolidityExamples()
    ensures !IsSolid(Air) && IsSolid(Grass) && IsSolid(Stone) && !IsSolid(Water)
  {
  }

  /** The unit test on transparency: air and water are transparent, grass is not. */
  lemma TransparencyExamples()
    ensures IsTransparent(Air) && !IsTransparent(Grass) && IsTransparent(Water)
  {
  }

  /**
   * Exactly three of the five variants are solid and the other two are
   * transparent.
   */
  lemma {:induction false} SolidCount()
    ensures |set i | 0 <= i < |AllBlocks| && IsSolid(AllBlocks[i])| == 3
    ensures |set i | 0 <= i < |AllBlocks| && IsTransparent(AllBlocks[i])| == 2
  {
    assert (set i | 0 <= i < |AllBlocks| && IsSolid(AllBlocks[i])) == {1, 2, 3};
    assert (set i | 0 <= i < |AllBlocks| && IsTransparent(AllBlocks[i])) == {0, 4};
  }
}
