# Voxel terrain renderer bookkeeping (explora)

This project models the integer bookkeeping of explora's voxel terrain
renderer, `explora/src/render/voxels.rs`, in Dafny, in one module `Voxels`
(`voxels.dfy`):

- `ceil_to_next_multiple`, which rounds the 8-byte chunk-offset payload up to
  the 256-byte dynamic-uniform-offset alignment to get the slot stride of the
  offset buffer;
- `compute_voxel_indices`, which turns a vertex count into the triangle index
  list (six indices `o, o+1, o+2, o+2, o+3, o` per quad of four vertices);
- the start-up part of `Voxels::new` that builds the 3x3 test grid, one mesh
  per chunk, the summed vertex count and the shared index buffer;
- the stride loop of `Voxels::draw`, as a trace that gives, for each chunk,
  the byte offset of its offset write, the written position, the dynamic
  offset, the vertex buffer bound and the number of indices drawn.

Rust's `u32` is the subset type `u32` (0 to 2^32 - 1). Where the source's
`u32` arithmetic could overflow or a cast could truncate, the model requires
that it does not: the rounding product (`CeilFits`, proved equivalent to the
absence of overflow by `CeilFitsExactly`), the index arithmetic of
`compute_voxel_indices`, the summed vertex count of start-up (which also rules
out a truncating `len() as u32`), the draw-pass stride counter and each
chunk's index count `len / 4 * 6`. What the source does beyond those bounds
(panic in a debug build, wrap or truncate in a release build) is not
modelled; "## Left out" lists each case.

The `Voxels` struct is a datatype: after `new` its fields are never changed
(`draw` reads them and records GPU commands), so `New` returns a value and
`Draw` takes one. Both keep the source's loops. The mesh builder is the
parameter `createChunkMesh: Vec2 -> nat`, which gives the number of vertices
built for a chunk position.

The shared index buffer is built from the sum of all chunks' vertex counts
(explora/src/render/voxels.rs:139, 145), not from the largest chunk's count,
and `ChunkDrawInIndexBuffer` proves that each chunk's draw range
lies inside that buffer and is exactly the chunk's own index list.

## Model

| member | source | states |
|---|---|---|
| `Voxels.CeilToNextMultiple` | explora/src/render/voxels.rs:20-23 | For `step > 0` and no overflow, the result is a multiple of `step`, at least `value` and below `value + step` |
| `Voxels.CeilFitsExactly` | explora/src/render/voxels.rs:21-22 | The precondition `CeilFits` holds exactly when `step * divide_and_ceil` fits in a u32 |
| `Voxels.CeilIsLeast` | explora/src/render/voxels.rs:20-23 | The result is at most every multiple of `step` that is at least `value`: it is the least such multiple |
| `Voxels.CeilIdempotent` | explora/src/render/voxels.rs:21-22 | A value that is already a multiple is returned unchanged, so rounding the result again gives the same result |
| `Voxels.OffsetStride` | explora/src/render/voxels.rs:40 | The slot stride, the 8-byte payload rounded up to 0x100, is 256 |
| `Voxels.CeilExamples` | explora/src/render/voxels.rs:20-23 | Rounding 8, 256, 257 and 0 up to 0x100 gives 256, 256, 512 and 0 |
| `Voxels.QuadIndices` | explora/src/render/voxels.rs:185-195 | The indices of the first `q` quads number exactly `6q` |
| `Voxels.VoxelIndices` | explora/src/render/voxels.rs:184-196 | The index list of `n` vertices has length `(n / 4) * 6` |
| `Voxels.ComputeVoxelIndices` | explora/src/render/voxels.rs:183-197 | The loop that appends six u32 indices per quad builds exactly the index list of the given vertex count, with no u32 overflow when `n / 4 <= 2^30` |
| `Voxels.VoxelIndicesAt` | explora/src/render/voxels.rs:185-194 | For quad `i < n / 4` and `j < 6`, element `6i + j` is `4i + [0,1,2,2,3,0][j]` |
| `Voxels.VoxelIndicesBelow` | explora/src/render/voxels.rs:185-194 | Every index is below `4 * (n / 4)`, which is at most `n` |
| `Voxels.VoxelIndicesPrefix` | explora/src/render/voxels.rs:185 | For `m <= n`, the list for `m` vertices is a prefix of the list for `n` vertices |
| `Voxels.VoxelIndicesSameQuads` | explora/src/render/voxels.rs:185 | Two vertex counts give the same list exactly when they have the same number of whole quads; in particular `n` and `4 * (n / 4)` do |
| `Voxels.VoxelIndicesExamples` | explora/src/render/voxels.rs:183-197 | The lists for 4, 8, 5 and 3 vertices are `[0,1,2,2,3,0]`, its two-quad extension, the same as for 4, and empty |
| `Voxels.TestGrid` | explora/src/render/voxels.rs:122-127 | The nested loops produce the test grid: position `k` is `(k / 3, k % 3)` for `k < 9` |
| `Voxels.TestGridShape` | explora/src/render/voxels.rs:122-127 | The grid holds exactly the positions of `{0,1,2} x {0,1,2}`, each once, with `(x, z)` at place `3x + z` (x-major) |
| `Voxels.TotalVertexCountBounds` | explora/src/render/voxels.rs:130-140 | Each chunk's vertex count, added to the count of the chunks before it, is at most the summed vertex count |
| `Voxels.BuildChunkMeshes` | explora/src/render/voxels.rs:129-140 | One mesh per position in order, with the builder's vertex count, and the u32 accumulator ends at the sum of the counts |
| `Voxels.New` | explora/src/render/voxels.rs:40-155 | Start-up yields nine chunk meshes on the test grid, a 256-byte stride, a 9-slot offset buffer and the index list of the summed vertex count |
| `Voxels.Draw` | explora/src/render/voxels.rs:167-178 | Chunk `k` is written and bound at offset `k * offset_stride`, gets its own position and vertex buffer and draws `vertexCount / 4 * 6` indices, a u32 |
| `Voxels.OffsetWritesFit` | explora/src/render/voxels.rs:169-173 | With a stride of at least 8 bytes, all 8-byte writes at `k * stride` for `n` chunks end inside a buffer of `slots` strides exactly when `n <= slots` |
| `Voxels.ValidOffsetsFit` | explora/src/render/voxels.rs:41-45 | After start-up every chunk's write ends inside the `offset_stride * 9` buffer, the stride counter stays in u32, and a tenth write would not fit |
| `Voxels.ChunkDrawInIndexBuffer` | explora/src/render/voxels.rs:177 | A chunk's draw range `0..vertexCount / 4 * 6` lies inside the shared index buffer, is exactly that chunk's own index list, and names only vertices of the chunk's own buffer |
| `Voxels.ValidDrawPass` | explora/src/render/voxels.rs:167-178 | A draw pass after start-up has nine steps with write offsets 0, 256, ..., 2048, each inside the offset buffer and drawing inside the index buffer |
| `Voxels.StartAndDraw` | explora/src/render/voxels.rs:122-178 | Start-up then one draw pass: the nine test chunks are drawn in grid order, each written at `256 * k` inside the offset buffer and drawing exactly its own index list from the shared index buffer |

## Left out

- Shader module, bind group layouts, bind groups, pipeline layout and render pipeline creation (explora/src/render/voxels.rs:32-119): declarative GPU configuration with no behaviour to state.
- `set_pipeline`, `set_bind_group(0, …)` and `set_index_buffer` at the start of a draw pass, and the GPU effects of `queue.write_buffer`, `set_bind_group`, `set_vertex_buffer` and `draw_indexed`: GPU command recording, modelled only as the per-chunk `ChunkDraw` trace.
- `mesh::create_chunk_mesh`, `Chunk::flat`, `Atlas`, `Buffer` and `Vertex` are not part of this model; a chunk's mesh is reduced to its vertex count, given by the `createChunkMesh` parameter.
- The `as f32` conversion of chunk positions written into the offset buffer: floating point; the trace records the integer position.
- `mem::size_of::<f32>()` is the constant 4, so the payload is 8 bytes; the `u64` buffer size and the `Vec::with_capacity` size hint are not modelled.
- CeilToNextMultiple: requires that the rounded value fits in a u32; beyond that the source's multiplication would panic (debug build) or wrap (release build), which is not modelled.
- ComputeVoxelIndices: requires `n / 4 <= 2^30`, so that `i as u32 * 4 + 3` does not overflow; the truncating cast and wrap-around beyond that are not modelled.
- BuildChunkMeshes: requires the summed vertex count to fit in a u32; overflow of `vertex_count +=` and the truncating cast `chunk_mesh.len() as u32` of a chunk with 2^32 or more vertices (which adds its length modulo 2^32) are not modelled.
- New: requires the summed vertex count of the nine test chunks to fit in a u32, for the same reason.
- Draw: requires the final stride counter `chunks * offset_stride` to fit in a u32, and each chunk's index count `len / 4 * 6` to fit in a u32; the wrap-around of `stride +=` and of `len / 4 * 6` (a chunk of 2_863_311_532 or more vertices) are not modelled.
- StartAndDraw: requires the same bounds as New and Draw, for the same reasons.
