/** The integer bookkeeping of explora's voxel terrain renderer
    (explora/src/render/voxels.rs): the slot stride of the dynamic-offset
    uniform buffer, the quad-to-triangle index list shared by every chunk,
    the 3x3 test grid built at start-up and the per-chunk offsets and index
    ranges of a draw pass. GPU objects are left out; a draw pass is
    described by the trace of what it writes and draws for each chunk. */
module Voxels {

  /** Largest value of a Rust `u32`. */
  const U32_MAX: int := 0xFFFF_FFFF

  /** Rust's `u32`: every arithmetic result stored in one must stay in range. */
  type u32 = x: int | 0 <= x <= U32_MAX

  /** Bytes of one chunk offset: two `f32` (x and z). */
  const PAYLOAD_SIZE: u32 := 4 * 2

  /** Alignment the renderer assumes for dynamic uniform-buffer offsets. */
  const UNIFORM_ALIGNMENT: u32 := 0x100

  /** Number of offset slots the uniform buffer is created with. */
  const OFFSET_SLOTS: nat := 9

  // ---------------------------------------------------------------------
  // Rounding up to a multiple (ceil_to_next_multiple)
  // ---------------------------------------------------------------------

  /** `value` can be rounded up to a multiple of `step` without leaving
      u32: some multiple of `step` that a u32 holds is at least `value`. */
  predicate CeilFits(value: u32, step: u32)
    requires step > 0
  {
    value <= U32_MAX / step * step
  }

  /** Smallest multiple of `step` that is at least `value`. */
  function CeilToNextMultiple(value: u32, step: u32): (r: u32)
    requires step > 0
    requires CeilFits(value, step)
    ensures r % step == 0
    ensures value <= r < value + step
  {
    var divideAndCeil := value / step + (if value % step == 0 then 0 else 1);
    CeilProduct(value, step);
    step * divideAndCeil
  }

  lemma MulLeftMono(c: int, a: int, b: int)
    requires c >= 0 && a <= b
    ensures c * a <= c * b
  {
  }

  lemma MulLeftStrict(c: int, a: int, b: int)
    requires c > 0 && c * a < c * b
    ensures a < b
  {
  }

  /** Quotient and remainder are determined by `x == step * q + r` with
      `0 <= r < step`. */
  lemma DivModUnique(x: int, step: int, q: int, r: int)
    requires step > 0 && x == step * q + r && 0 <= r < step
    ensures x / step == q && x % step == r
  {
    var q', r' := x / step, x % step;
    if q' < q {
      MulLeftMono(step, q' + 1, q);
    } else if q < q' {
      MulLeftMono(step, q + 1, q');
    }
  }

  /** A multiple of `step` not above `step * m + rm` (with `rm < step`)
      is not above `step * m`. */
  lemma MultipleBelow(step: int, q: int, m: int, rm: int)
    requires step > 0 && 0 <= rm < step && step * q <= step * m + rm
    ensures step * q <= step * m
  {
    MulLeftStrict(step, q, m + 1);
    MulLeftMono(step, q, m);
  }

  /** For `0 < rv < step`: `step * q + rv` is below a multiple `step * m`
      exactly when the next multiple `step * (q + 1)` is. */
  lemma NextMultipleBelow(step: int, q: int, m: int, rv: int, rm: int)
    requires step > 0 && 0 < rv < step && 0 <= rm < step
    ensures step * q + rv <= step * m <==> step * (q + 1) <= step * m + rm
  {
    if step * q + rv <= step * m {
      MulLeftStrict(step, q, m);
      MulLeftMono(step, q + 1, m);
    }
    if step * (q + 1) <= step * m + rm {
      MulLeftStrict(step, q + 1, m + 1);
      MulLeftMono(step, q + 1, m);
    }
  }

  /** The arithmetic behind `CeilToNextMultiple`, on unbounded integers. */
  lemma CeilProduct(value: u32, step: u32)
    requires step > 0
    ensures var d := value / step + (if value % step == 0 then 0 else 1);
      (step * d) % step == 0 && value <= step * d < value + step &&
      (step * d <= U32_MAX <==> CeilFits(value, step))
  {
    var q, rv, m, rm := value / step, value % step, U32_MAX / step, U32_MAX % step;
    var d := q + (if rv == 0 then 0 else 1);
    assert value == step * q + rv;
    assert U32_MAX == step * m + rm;
    DivModUnique(step * d, step, d, 0);
    if rv == 0 {
      MultipleBelow(step, q, m, rm);
    } else {
      assert step * d == step * q + step;
      NextMultipleBelow(step, q, m, rv, rm);
    }
  }

  /** `CeilFits` is exactly the condition under which the u32 product of
      `ceil_to_next_multiple` does not overflow. */
  lemma CeilFitsExactly(value: u32, step: u32)
    requires step > 0
    ensures CeilFits(value, step) <==>
      step * (value / step + (if value % step == 0 then 0 else 1)) <= U32_MAX
  {
    CeilProduct(value, step);
  }

  /** The result is the least multiple of `step` not below `value`. */
  lemma CeilIsLeast(value: u32, step: u32, m: nat)
    requires step > 0 && CeilFits(value, step)
    requires m % step == 0 && value <= m
    ensures CeilToNextMultiple(value, step) <= m
  {
    var r := CeilToNextMultiple(value, step);
    if m < r {
      var i, j := m / step, r / step;
      assert m == step * i;
      assert r == step * j;
      MulLeftStrict(step, i, j);
      MulLeftMono(step, i, j - 1);
      assert false;
    }
  }

  /** Values that are already multiples are returned unchanged, so
      rounding twice is the same as rounding once. */
  lemma CeilIdempotent(value: u32, step: u32)
    requires step > 0 && CeilFits(value, step)
    ensures value % step == 0 ==> CeilToNextMultiple(value, step) == value
    ensures CeilFits(CeilToNextMultiple(value, step), step)
    ensures CeilToNextMultiple(CeilToNextMultiple(value, step), step)
            == CeilToNextMultiple(value, step)
  {
    var r := CeilToNextMultiple(value, step);
    CeilIsLeast(value, step, U32_MAX / step * step) by {
      DivModUnique(U32_MAX / step * step, step, U32_MAX / step, 0);
    }
    if value % step == 0 {
      CeilIsLeast(value, step, value);
    }
    CeilIsLeast(r, step, r);
  }

  /** Slot stride of the offset buffer: the 8-byte payload rounded up to
      the 256-byte alignment. */
  function OffsetStride(): (r: u32)
    ensures r == UNIFORM_ALIGNMENT
  {
    CeilToNextMultiple(PAYLOAD_SIZE, UNIFORM_ALIGNMENT)
  }

  /** Worked examples: the payload, an aligned value, one past it, zero. */
  lemma CeilExamples()
    ensures CeilToNextMultiple(8, 0x100) == 256
    ensures CeilToNextMultiple(256, 0x100) == 256
    ensures CeilToNextMultiple(257, 0x100) == 512
    ensures CeilToNextMultiple(0, 0x100) == 0
  {
  }

  // ---------------------------------------------------------------------
  // Triangle indices (compute_voxel_indices)
  // ---------------------------------------------------------------------

  /** Corner order of the two counter-clockwise triangles 0-1-2 and 2-3-0
      that cover one quad. */
  const QUAD_CORNERS: seq<nat> := [0, 1, 2, 2, 3, 0]

  /** Indices of the first `quads` quads, quad by quad. */
  function QuadIndices(quads: nat): (r: seq<nat>)
    ensures |r| == 6 * quads
  {
    if quads == 0 then []
    else
      var o := 4 * (quads - 1);
      QuadIndices(quads - 1) + [o, o + 1, o + 2, o + 2, o + 3, o]
  }

  /** Index list for `n` vertices: trailing vertices that do not make up
      a whole quad get no triangles. */
  function VoxelIndices(n: nat): (r: seq<nat>)
    ensures |r| == n / 4 * 6
  {
    QuadIndices(n / 4)
  }

  /** Builds the index list by appending six indices per quad. The u32
      arithmetic does not overflow exactly when `n / 4 <= 2^30`. */
  method ComputeVoxelIndices(numberOfVertices: nat) returns (indices: seq<u32>)
    requires numberOfVertices / 4 <= 0x4000_0000
    ensures indices == VoxelIndices(numberOfVertices)
  {
    indices := [];
    for i := 0 to numberOfVertices / 4
      invariant indices == QuadIndices(i)
    {
      var offset: u32 := i * 4;
      indices := indices + [offset, offset + 1, offset + 2, offset + 2, offset + 3, offset];
    }
  }

  lemma {:induction false} QuadIndicesAt(quads: nat, i: nat, j: nat)
    requires i < quads && j < 6
    ensures QuadIndices(quads)[6 * i + j] == 4 * i + QUAD_CORNERS[j]
  {
    if i < quads - 1 {
      QuadIndicesAt(quads - 1, i, j);
    }
  }

  /** Element `6i + j` of the list is corner `j` of quad `i`. */
  lemma VoxelIndicesAt(n: nat, i: nat, j: nat)
    requires i < n / 4 && j < 6
    ensures 6 * i + j < |VoxelIndices(n)|
    ensures VoxelIndices(n)[6 * i + j] == 4 * i + QUAD_CORNERS[j]
  {
    QuadIndicesAt(n / 4, i, j);
  }

  /** No index points past the whole quads of the `n` vertices. */
  lemma VoxelIndicesBelow(n: nat, k: nat)
    requires k < |VoxelIndices(n)|
    ensures VoxelIndices(n)[k] < 4 * (n / 4) <= n
  {
    var i, j := k / 6, k % 6;
    assert k == 6 * i + j;
    VoxelIndicesAt(n, i, j);
  }

  lemma {:induction false} QuadIndicesPrefix(p: nat, q: nat)
    requires p <= q
    ensures QuadIndices(p) == QuadIndices(q)[..6 * p]
  {
    if p < q {
      QuadIndicesPrefix(p, q - 1);
      assert QuadIndices(q)[..6 * (q - 1)] == QuadIndices(q - 1);
    }
  }

  /** Fewer vertices give a prefix of the index list of more vertices. */
  lemma VoxelIndicesPrefix(m: nat, n: nat)
    requires m <= n
    ensures |VoxelIndices(m)| <= |VoxelIndices(n)|
    ensures VoxelIndices(m) == VoxelIndices(n)[..|VoxelIndices(m)|]
  {
    QuadIndicesPrefix(m / 4, n / 4);
  }

  /** Two vertex counts give the same index list exactly when they hold the
      same number of whole quads: trailing vertices are ignored. */
  lemma VoxelIndicesSameQuads(m: nat, n: nat)
    ensures VoxelIndices(m) == VoxelIndices(n) <==> m / 4 == n / 4
    ensures VoxelIndices(n) == VoxelIndices(4 * (n / 4))
  {
    if VoxelIndices(m) == VoxelIndices(n) {
      assert |VoxelIndices(m)| == |VoxelIndices(n)|;
    }
  }

  /** Worked examples: one quad, two quads, a trailing vertex, no quad. */
  lemma VoxelIndicesExamples()
    ensures VoxelIndices(4) == [0, 1, 2, 2, 3, 0]
    ensures VoxelIndices(8) == [0, 1, 2, 2, 3, 0, 4, 5, 6, 6, 7, 4]
    ensures VoxelIndices(5) == VoxelIndices(4)
    ensures VoxelIndices(3) == []
  {
  }

  // ---------------------------------------------------------------------
  // Test geometry and start-up (Voxels::new)
  // ---------------------------------------------------------------------

  /** A chunk position in chunk-grid space (`Vec2<i32>`: x, then z). */
  datatype Vec2 = Vec2(x: int, y: int)

  /** A chunk's position and its vertex buffer, reduced to its length. */
  datatype ChunkMesh = ChunkMesh(position: Vec2, vertexCount: nat)

  /** The 3x3 test grid, x-major: position k is (k / 3, k % 3). */
  function TestGridPositions(): seq<Vec2>
  {
    seq(9, k requires 0 <= k < 9 => Vec2(k / 3, k % 3))
  }

  /** The test grid holds exactly the nine positions of {0,1,2}x{0,1,2},
      each once, with (x, z) at place 3x + z. */
  lemma TestGridShape()
    ensures forall p: Vec2 :: p in TestGridPositions() <==> 0 <= p.x < 3 && 0 <= p.y < 3
    ensures forall x: nat, z: nat :: x < 3 && z < 3 ==> TestGridPositions()[3 * x + z] == Vec2(x, z)
    ensures forall k, l :: 0 <= k < l < 9 ==> TestGridPositions()[k] != TestGridPositions()[l]
  {
    var g := TestGridPositions();
    forall x: nat, z: nat | x < 3 && z < 3
      ensures g[3 * x + z] == Vec2(x, z)
    {
      assert (3 * x + z) / 3 == x && (3 * x + z) % 3 == z;
    }
    forall p: Vec2 | 0 <= p.x < 3 && 0 <= p.y < 3
      ensures p in g
    {
      assert g[3 * p.x + p.y] == p;
    }
  }

  /** Fills the chunk list with the 3x3 test grid by two nested loops. */
  method TestGrid() returns (chunkGeneration: seq<Vec2>)
    ensures chunkGeneration == TestGridPositions()
  {
    chunkGeneration := [];
    for x := 0 to 3
      invariant |chunkGeneration| == 3 * x
      invariant forall k :: 0 <= k < |chunkGeneration| ==> chunkGeneration[k] == Vec2(k / 3, k % 3)
    {
      for z := 0 to 3
        invariant |chunkGeneration| == 3 * x + z
        invariant forall k :: 0 <= k < |chunkGeneration| ==> chunkGeneration[k] == Vec2(k / 3, k % 3)
      {
        chunkGeneration := chunkGeneration + [Vec2(x, z)];
      }
    }
  }

  /** Sum of the vertex counts of `meshes`. */
  function TotalVertexCount(meshes: seq<ChunkMesh>): nat
  {
    if meshes == [] then 0
    else TotalVertexCount(meshes[..|meshes| - 1]) + meshes[|meshes| - 1].vertexCount
  }

  /** Every mesh holds at most the total number of vertices, and so does
      every prefix of the list. */
  lemma {:induction false} TotalVertexCountBounds(meshes: seq<ChunkMesh>, k: nat)
    requires k < |meshes|
    ensures meshes[k].vertexCount <= TotalVertexCount(meshes)
    ensures TotalVertexCount(meshes[..k]) + meshes[k].vertexCount <= TotalVertexCount(meshes)
  {
    var last := |meshes| - 1;
    if k < last {
      TotalVertexCountBounds(meshes[..last], k);
      assert meshes[..last][..k] == meshes[..k];
    } else {
      assert meshes[..last] == meshes[..k];
    }
  }

  /** The meshes generated for `positions` by `createChunkMesh`, which
      gives the number of vertices the mesh builder emits for a chunk. */
  function MeshesOf(positions: seq<Vec2>, createChunkMesh: Vec2 -> nat): seq<ChunkMesh>
  {
    seq(|positions|, k requires 0 <= k < |positions| => ChunkMesh(positions[k], createChunkMesh(positions[k])))
  }

  /** Builds one mesh per position, keeping the order, and sums the vertex
      counts into a u32, which must not overflow. */
  method BuildChunkMeshes(chunkGeneration: seq<Vec2>, createChunkMesh: Vec2 -> nat)
    returns (chunkMeshes: seq<ChunkMesh>, vertexCount: u32)
    requires TotalVertexCount(MeshesOf(chunkGeneration, createChunkMesh)) <= U32_MAX
    ensures |chunkMeshes| == |chunkGeneration|
    ensures forall k :: 0 <= k < |chunkMeshes| ==>
      chunkMeshes[k].position == chunkGeneration[k] &&
      chunkMeshes[k].vertexCount == createChunkMesh(chunkGeneration[k])
    ensures vertexCount == TotalVertexCount(chunkMeshes)
  {
    ghost var all := MeshesOf(chunkGeneration, createChunkMesh);
    chunkMeshes := [];
    vertexCount := 0;
    for k := 0 to |chunkGeneration|
      invariant chunkMeshes == all[..k]
      invariant vertexCount == TotalVertexCount(chunkMeshes)
    {
      var pos := chunkGeneration[k];
      var chunkMesh := createChunkMesh(pos);
      TotalVertexCountBounds(all, k);
      chunkMeshes := chunkMeshes + [ChunkMesh(pos, chunkMesh)];
      assert chunkMeshes[..k] == all[..k];
      vertexCount := vertexCount + chunkMesh;
    }
    assert all[..|chunkGeneration|] == all;
  }

  /** The renderer's state after start-up, without its GPU handles. */
  datatype Voxels = Voxels(
    chunkMeshes: seq<ChunkMesh>,
    indexBuffer: seq<u32>,
    offsetBufferSize: nat,
    offsetStride: u32)
  {
    /** What start-up establishes: one chunk per offset slot, a 256-byte
        stride, a buffer of nine slots, and one index list covering the
        vertices of all chunks together. */
    predicate Valid()
    {
      |chunkMeshes| == OFFSET_SLOTS &&
      offsetStride == OffsetStride() &&
      offsetBufferSize == offsetStride * OFFSET_SLOTS &&
      TotalVertexCount(chunkMeshes) <= U32_MAX &&
      indexBuffer == VoxelIndices(TotalVertexCount(chunkMeshes))
    }
  }

  /** Start-up: the test grid, one mesh per chunk, the shared index buffer
      for the summed vertex count and the offset buffer of nine slots. */
  method New(createChunkMesh: Vec2 -> nat) returns (v: Voxels)
    requires TotalVertexCount(MeshesOf(TestGridPositions(), createChunkMesh)) <= U32_MAX
    ensures v.Valid()
    ensures |v.chunkMeshes| == 9
    ensures forall k :: 0 <= k < 9 ==>
      v.chunkMeshes[k] == ChunkMesh(TestGridPositions()[k], createChunkMesh(TestGridPositions()[k]))
  {
    var offsetStride := CeilToNextMultiple(PAYLOAD_SIZE, UNIFORM_ALIGNMENT);
    var offsetBufferSize := offsetStride * OFFSET_SLOTS;
    var chunkGeneration := TestGrid();
    var chunkMeshes, vertexCount := BuildChunkMeshes(chunkGeneration, createChunkMesh);
    var indexBuffer := ComputeVoxelIndices(vertexCount);
    v := Voxels(chunkMeshes, indexBuffer, offsetBufferSize, offsetStride);
  }

  // ---------------------------------------------------------------------
  // Draw pass (Voxels::draw)
  // ---------------------------------------------------------------------

  /** What a draw pass does for one chunk: the byte offset at which its
      position is written into the offset buffer, the position written,
      the dynamic offset bound for the chunk's bind group, the vertex
      buffer bound (the chunk's place in the list) and the number of
      indices drawn, from index 0 (a u32, as `draw_indexed` takes). */
  datatype ChunkDraw = ChunkDraw(
    writeOffset: nat,
    offset: Vec2,
    dynamicOffset: nat,
    vertexBuffer: nat,
    indexCount: u32)

  /** One pass over the chunks in list order with a u32 stride counter
      that starts at 0 and grows by the slot stride after every chunk.
      Neither the counter nor any chunk's u32 index count overflows. */
  method Draw(v: Voxels) returns (pass: seq<ChunkDraw>)
    requires |v.chunkMeshes| * v.offsetStride <= U32_MAX
    requires forall k :: 0 <= k < |v.chunkMeshes| ==> v.chunkMeshes[k].vertexCount / 4 * 6 <= U32_MAX
    ensures |pass| == |v.chunkMeshes|
    ensures forall k :: 0 <= k < |pass| ==>
      pass[k].writeOffset == k * v.offsetStride &&
      pass[k].dynamicOffset == k * v.offsetStride &&
      pass[k].offset == v.chunkMeshes[k].position &&
      pass[k].vertexBuffer == k &&
      pass[k].indexCount == v.chunkMeshes[k].vertexCount / 4 * 6
  {
    pass := [];
    var stride: u32 := 0;
    for k := 0 to |v.chunkMeshes|
      invariant stride == k * v.offsetStride
      invariant |pass| == k
      invariant forall i :: 0 <= i < k ==>
        pass[i] == ChunkDraw(i * v.offsetStride, v.chunkMeshes[i].position,
                             i * v.offsetStride, i, v.chunkMeshes[i].vertexCount / 4 * 6)
    {
      var chunkMesh := v.chunkMeshes[k];
      pass := pass + [ChunkDraw(stride, chunkMesh.position, stride, k, chunkMesh.vertexCount / 4 * 6)];
      MulLeftMono(v.offsetStride, k + 1, |v.chunkMeshes|);
      stride := stride + v.offsetStride;
    }
  }

  /** With a stride at least the payload size, the payloads written at
      `k * stride` for `n` chunks all end inside a buffer of `slots`
      strides exactly when `n <= slots`. */
  lemma OffsetWritesFit(n: nat, stride: nat, slots: nat)
    requires PAYLOAD_SIZE <= stride
    ensures (forall k: nat :: k < n ==> k * stride + PAYLOAD_SIZE <= stride * slots) <==> n <= slots
  {
    if n <= slots {
      forall k: nat | k < n
        ensures k * stride + PAYLOAD_SIZE <= stride * slots
      {
        MulLeftMono(stride, k + 1, slots);
      }
    } else {
      var k := n - 1;
      MulLeftMono(stride, slots, k);
      assert k * stride + PAYLOAD_SIZE > stride * slots;
    }
  }

  /** After start-up every chunk's offset write lands inside the offset
      buffer and the stride counter never leaves u32; a tenth chunk would
      be written past the end. */
  lemma ValidOffsetsFit(v: Voxels)
    requires v.Valid()
    ensures |v.chunkMeshes| * v.offsetStride <= U32_MAX
    ensures forall k: nat :: k < |v.chunkMeshes| ==>
      k * v.offsetStride + PAYLOAD_SIZE <= v.offsetBufferSize
    ensures |v.chunkMeshes| * v.offsetStride + PAYLOAD_SIZE > v.offsetBufferSize
  {
    OffsetWritesFit(|v.chunkMeshes|, v.offsetStride, OFFSET_SLOTS);
  }

  /** The indices a chunk draws, `0..vertexCount / 4 * 6`, lie inside the
      shared index buffer, are exactly the chunk's own index list, and
      name only vertices of the chunk's own vertex buffer. */
  lemma ChunkDrawInIndexBuffer(v: Voxels, k: nat)
    requires v.Valid() && k < |v.chunkMeshes|
    ensures var count := v.chunkMeshes[k].vertexCount / 4 * 6;
      count <= |v.indexBuffer| &&
      v.indexBuffer[..count] == VoxelIndices(v.chunkMeshes[k].vertexCount) &&
      forall i :: 0 <= i < count ==> v.indexBuffer[i] < v.chunkMeshes[k].vertexCount
  {
    var n := v.chunkMeshes[k].vertexCount;
    TotalVertexCountBounds(v.chunkMeshes, k);
    VoxelIndicesPrefix(n, TotalVertexCount(v.chunkMeshes));
    forall i | 0 <= i < n / 4 * 6
      ensures v.indexBuffer[i] < n
    {
      assert v.indexBuffer[i] == VoxelIndices(n)[i];
      VoxelIndicesBelow(n, i);
    }
  }

  /** A draw pass after start-up writes the nine offsets at 0, 256, ...,
      2048 and every draw stays within the shared index buffer. */
  lemma ValidDrawPass(v: Voxels, pass: seq<ChunkDraw>)
    requires v.Valid()
    requires |pass| == |v.chunkMeshes|
    requires forall k :: 0 <= k < |pass| ==>
      pass[k].writeOffset == k * v.offsetStride &&
      pass[k].indexCount == v.chunkMeshes[k].vertexCount / 4 * 6
    ensures |pass| == 9
    ensures forall k :: 0 <= k < 9 ==> pass[k].writeOffset == 256 * k
    ensures forall k :: 0 <= k < 9 ==>
      pass[k].writeOffset + PAYLOAD_SIZE <= v.offsetBufferSize &&
      pass[k].indexCount <= |v.indexBuffer|
  {
    ValidOffsetsFit(v);
    forall k | 0 <= k < 9
      ensures pass[k].indexCount <= |v.indexBuffer|
    {
      ChunkDrawInIndexBuffer(v, k);
    }
  }

  /** Start-up followed by one draw pass, as a frame loop runs them: the
      nine test chunks are drawn in grid order, each written at `256 * k`
      inside the offset buffer and drawing exactly its own index list
      from the shared index buffer. */
  method StartAndDraw(createChunkMesh: Vec2 -> nat) returns (v: Voxels, pass: seq<ChunkDraw>)
    requires TotalVertexCount(MeshesOf(TestGridPositions(), createChunkMesh)) <= U32_MAX
    requires forall p :: p in TestGridPositions() ==> createChunkMesh(p) / 4 * 6 <= U32_MAX
    ensures v.Valid() && |pass| == 9
    ensures forall k :: 0 <= k < 9 ==>
      pass[k].offset == TestGridPositions()[k] &&
      pass[k].writeOffset == pass[k].dynamicOffset == 256 * k &&
      pass[k].writeOffset + PAYLOAD_SIZE <= v.offsetBufferSize &&
      pass[k].indexCount <= |v.indexBuffer| &&
      v.indexBuffer[..pass[k].indexCount] == VoxelIndices(createChunkMesh(TestGridPositions()[k]))
  {
    v := New(createChunkMesh);
    ValidOffsetsFit(v);
    pass := Draw(v);
    ValidDrawPass(v, pass);
    forall k | 0 <= k < 9
      ensures v.indexBuffer[..pass[k].indexCount] == VoxelIndices(createChunkMesh(TestGridPositions()[k]))
    {
      ChunkDrawInIndexBuffer(v, k);
    }
  }
}
