/** The external types a cache slot is built from. Their internals (bounds,
    point storage, overflow policy, hierarchy counters) are not modelled: a
    chunk is observable only through the identity it was constructed from. */
module Chunks {

  /** Position of a chunk among its siblings at one depth of the octree. */
  datatype Xyz = Xyz(x: nat, y: nat, z: nat)

  /** Depth-qualified position: the global identity of a chunk. */
  datatype Dxyz = Dxyz(depth: nat, position: Xyz)

  /** The handle callers use to request a chunk. */
  datatype ChunkKey = ChunkKey(dxyz: Dxyz)

  /** Which hierarchy object a chunk is constructed against. */
  datatype Hierarchy = Hierarchy(id: nat)

  /** An owned octree node, known only by what it was built from. */
  datatype Chunk = Chunk(key: ChunkKey, hierarchy: Hierarchy)

  /** Construction of a chunk from its key and the hierarchy: the chunk is
      identified by the key it was built for. */
  function MakeChunk(ck: ChunkKey, hierarchy: Hierarchy): (c: Chunk)
    ensures c.key == ck
    ensures c.hierarchy == hierarchy
  {
    Chunk(ck, hierarchy)
  }

  /** Chunks built from different keys or against different hierarchies are
      different chunks. */
  lemma MakeChunkInjective(ck1: ChunkKey, h1: Hierarchy, ck2: ChunkKey, h2: Hierarchy)
    ensures MakeChunk(ck1, h1) == MakeChunk(ck2, h2) <==> ck1 == ck2 && h1 == h2
  {
  }
}
