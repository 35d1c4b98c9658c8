/** Terrain generation: the per-cell material rule and the block grid of one chunk.
    The noise surface (a sine/cosine product in the game) is taken as a parameter:
    any total function from a world column (x, z) to a real number. */
module Terrain {

  /** Edge length of a chunk, in blocks. */
  const ChunkSize: int := 16

  /** The textures the game loads; a block's material is one of them. */
  datatype Material = Grass | Dirt | Stone | Water | Wood | Sand

  datatype Vec3 = Vec3(x: real, y: real, z: real)

  /** A block reduced to what the game decides about it: its material and its position. */
  datatype Block = Block(material: Material, position: Vec3)

  /** A noise function: world column (x, z) to a sample. */
  type Noise = (int, int) -> real

  /** Terrain height for a noise sample `n`: the larger of n * 10 and 2. */
  function Height(n: real): (h: real)
    ensures h >= 2.0 && h >= n * 10.0
    ensures h == 2.0 || h == n * 10.0
    ensures -1.0 <= n <= 1.0 ==> h <= 10.0
  {
    if n * 10.0 > 2.0 then n * 10.0 else 2.0
  }

  /** Material of the cell at height `y` in a column whose terrain height is `h`. */
  function ColumnMaterial(y: int, h: real): (m: Material)
    ensures m == Stone || m == Dirt || m == Grass
  {
    if (y as real) < h - 1.0 then Stone
    else if (y as real) < h then Dirt
    else Grass
  }

  /** Stone below dirt below grass: the rank of the material never decreases with y. */
  function Layer(m: Material): nat
  {
    match m
    case Stone => 0
    case Dirt => 1
    case _ => 2
  }

  lemma BottomIsStone(h: real)
    requires h >= 2.0
    ensures ColumnMaterial(0, h) == Stone
  {
  }

  lemma HighCellsAreGrass(y: int, h: real)
    requires h <= 10.0 && y >= 10
    ensures ColumnMaterial(y, h) == Grass
  {
  }

  lemma LayersMonotone(y1: int, y2: int, h: real)
    requires y1 <= y2
    ensures Layer(ColumnMaterial(y1, h)) <= Layer(ColumnMaterial(y2, h))
  {
  }

  /** The column rule stated as three ranges: stone iff y < h - 1, dirt iff h - 1 <= y < h,
      grass iff h <= y; so no cell of a column is ever left without a block. */
  lemma ColumnRanges(y: int, h: real)
    ensures ColumnMaterial(y, h) == Stone <==> (y as real) < h - 1.0
    ensures ColumnMaterial(y, h) == Dirt <==> h - 1.0 <= (y as real) < h
    ensures ColumnMaterial(y, h) == Grass <==> h <= (y as real)
  {
  }

  /** Every column has exactly one dirt cell, at the least integer y with y >= h - 1. */
  lemma OneDirtCell(h: real) returns (d: int)
    ensures ColumnMaterial(d, h) == Dirt
    ensures forall y: int :: ColumnMaterial(y, h) == Dirt ==> y == d
  {
    var f := h.Floor;
    d := if f as real == h then f - 1 else f;
    forall y: int | ColumnMaterial(y, h) == Dirt
      ensures y == d
    {
      assert h - 1.0 <= y as real < h;
      assert (f as real) <= h < (f as real) + 1.0;
    }
  }

  /** The block the chunk at grid position (xOffset, zOffset) holds in local cell (x, y, z).
      Its position is the one the generator sets on the block, (x + xOffset·16, y, z + zOffset·16),
      which the scene takes relative to the chunk's group. */
  function CellBlock(xOffset: int, zOffset: int, x: int, y: int, z: int, noise: Noise): Block
  {
    var wx := x + xOffset * ChunkSize;
    var wz := z + zOffset * ChunkSize;
    Block(ColumnMaterial(y, Height(noise(wx, wz))), Vec3(wx as real, y as real, wz as real))
  }

  /** Position of local cell (x, y, z) in the order the generator emits blocks (x, then y, then z).
      Here and below 16 is ChunkSize, 256 = 16·16 and 4096 = 16·16·16, written as literals so
      that the solver sees linear arithmetic. */
  function CellIndex(x: int, y: int, z: int): int
  {
    (x * 16 + y) * 16 + z
  }

  predicate InChunk(x: int, y: int, z: int)
  {
    0 <= x < ChunkSize && 0 <= y < ChunkSize && 0 <= z < ChunkSize
  }

  /** The block the generator emits at position `i` of a chunk's block list. */
  function EmittedBlock(xOffset: int, zOffset: int, noise: Noise, i: int): Block
  {
    CellBlock(xOffset, zOffset, i / 256, i / 16 % 16, i % 16, noise)
  }

  /** All blocks of a chunk, in emission order. */
  function ChunkBlocks(xOffset: int, zOffset: int, noise: Noise): (blocks: seq<Block>)
    ensures |blocks| == 16 * 16 * 16
  {
    seq(4096, i => EmittedBlock(xOffset, zOffset, noise, i))
  }

  lemma CellIndexDecode(x: int, y: int, z: int)
    requires InChunk(x, y, z)
    ensures 0 <= CellIndex(x, y, z) < 4096
    ensures CellIndex(x, y, z) / 256 == x
    ensures CellIndex(x, y, z) / 16 % 16 == y
    ensures CellIndex(x, y, z) % 16 == z
  {
    var i := CellIndex(x, y, z);
    assert i == 256 * x + 16 * y + z;
    assert i / 16 == 16 * x + y;
  }

  /** Each local cell holds exactly one block of the chunk. The block carries the position the
      generator sets, (x + xOffset·16, y, z + zOffset·16), relative to the chunk's group, and the
      material the column rule gives for the height of column (x + xOffset·16, z + zOffset·16). */
  lemma ChunkCell(xOffset: int, zOffset: int, noise: Noise, x: int, y: int, z: int)
    requires InChunk(x, y, z)
    ensures 0 <= CellIndex(x, y, z) < |ChunkBlocks(xOffset, zOffset, noise)|
    ensures ChunkBlocks(xOffset, zOffset, noise)[CellIndex(x, y, z)].position
         == Vec3((x + xOffset * 16) as real, y as real, (z + zOffset * 16) as real)
    ensures ChunkBlocks(xOffset, zOffset, noise)[CellIndex(x, y, z)].material
         == ColumnMaterial(y, Height(noise(x + xOffset * 16, z + zOffset * 16)))
  {
    CellIndexDecode(x, y, z);
  }

  /** Distinct cells never share a slot: the emission order is one block per cell. */
  lemma CellIndexInjective(x: int, y: int, z: int, x': int, y': int, z': int)
    requires InChunk(x, y, z) && InChunk(x', y', z')
    requires CellIndex(x, y, z) == CellIndex(x', y', z')
    ensures x == x' && y == y' && z == z'
  {
    CellIndexDecode(x, y, z);
    CellIndexDecode(x', y', z');
  }

  /** With the noise sample bounded by 1 in magnitude, every chunk has stone in its bottom
      layer and grass in every layer from 10 up. */
  lemma ChunkLayers(xOffset: int, zOffset: int, noise: Noise, x: int, y: int, z: int)
    requires InChunk(x, y, z)
    requires -1.0 <= noise(x + xOffset * 16, z + zOffset * 16) <= 1.0
    ensures 0 <= CellIndex(x, y, z) < |ChunkBlocks(xOffset, zOffset, noise)|
    ensures y == 0 ==> ChunkBlocks(xOffset, zOffset, noise)[CellIndex(x, y, z)].material == Stone
    ensures y >= 10 ==> ChunkBlocks(xOffset, zOffset, noise)[CellIndex(x, y, z)].material == Grass
  {
    ChunkCell(xOffset, zOffset, noise, x, y, z);
  }

  /** The triple loop of the generator: one block per cell, x outermost, z innermost. */
  method CreateChunk(xOffset: int, zOffset: int, noise: Noise) returns (blocks: seq<Block>)
    ensures blocks == ChunkBlocks(xOffset, zOffset, noise)
  {
    ghost var all := ChunkBlocks(xOffset, zOffset, noise);
    blocks := [];
    var x := 0;
    while x < ChunkSize
      invariant 0 <= x <= ChunkSize
      invariant blocks == all[..x * 256]
    {
      var y := 0;
      while y < ChunkSize
        invariant 0 <= y <= ChunkSize
        invariant blocks == all[..x * 256 + y * 16]
      {
        var z := 0;
        while z < ChunkSize
          invariant 0 <= z <= ChunkSize
          invariant blocks == all[..x * 256 + y * 16 + z]
        {
          var height := Height(noise(x + xOffset * ChunkSize, z + zOffset * ChunkSize));
          var material;
          if (y as real) < height - 1.0 {
            material := Stone;
          } else if (y as real) < height {
            material := Dirt;
          } else {
            material := Grass;
          }
          var block := Block(material, Vec3((x + xOffset * ChunkSize) as real, y as real,
                                            (z + zOffset * ChunkSize) as real));
          CellIndexDecode(x, y, z);
          assert block == all[CellIndex(x, y, z)];
          blocks := blocks + [block];
          z := z + 1;
        }
        y := y + 1;
      }
      x := x + 1;
    }
  }
}
