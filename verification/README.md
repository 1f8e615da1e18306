# ReffedChunk: the reference-counted slot of Entwine's chunk cache

Entwine's builder keeps the octree nodes ("chunks") of a point-cloud index in an
out-of-core cache. Each cache entry is a `ReffedChunk`
(`entwine/builder/chunk-cache.hpp:24-59`): a slot holding a 64-bit reference
count and at most one resident, owned chunk. `add()` / `del()` change the count,
`reset()` frees the chunk, and `assign()` builds a new one into an empty slot.
The cache code that calls these operations is in a source file that is not part
of this model.

This project models that slot as an immutable datatype with pure transition
functions, and proves its contracts:

- `wrappers.dfy` — `Option` and `Result`.
- `uint64s.dfy` — `uint64_t` values and the wrapping pre-increment.
- `chunks.dfy` — the external key, hierarchy and chunk types. A chunk is known
  only by the key and hierarchy it was constructed from.
- `chunk_cache.dfy` — module `ChunkCache`: the `ReffedChunk` slot, its
  operations, the lemmas relating them, and the `Info` counter record.
- `ref_history.dfy` — module `RefHistory`: arbitrary sequences of `add()` /
  `del()` calls, where the first throwing `del()` aborts the rest.

Operations that throw in C++ (`del()` throws "Negative", `chunk()` throws
"Missing chunk") return a `Step`: the slot left behind, plus either the value
returned or the error thrown. The contracts therefore also state that a throwing
call leaves the slot unchanged. `assign()` guards itself with `assert(!exists())`.
That assertion is modelled as a precondition.

The reference count is a `uint64_t`, so `++m_refs` wraps to zero from
2^64 - 1. The model keeps that wrap-around. The add-then-del round trip holds
below the top of the range. `AddAtMaxWraps` shows what happens at the top.

Two points about the code fix the shape of the model:

- `reset()` (`chunk-cache.hpp:47`) does not look at `m_refs`, so `Reset` has no
  precondition and keeps the count whatever it is.
- `del()` and `chunk()` throw `std::runtime_error` (`chunk-cache.hpp:36, 43`),
  which a caller may catch. The model returns each as a `Failure` that leaves
  the slot unchanged.

## Model

| member | source | states |
|---|---|---|
| Chunks.MakeChunk | entwine/builder/chunk-cache.hpp:28 | `makeUnique<Chunk>(ck, hierarchy)` gives a chunk identified by the key and hierarchy it was built from |
| Chunks.MakeChunkInjective | entwine/builder/chunk-cache.hpp:52 | chunks built from different keys or hierarchies are different, so the chunk `assign()` builds determines its key |
| ChunkCache.Count | entwine/builder/chunk-cache.hpp:39 | `count()` is zero exactly when `del()` throws, and otherwise one more than what `del()` returns |
| ChunkCache.Exists | entwine/builder/chunk-cache.hpp:48 | `exists()` is true exactly when `chunk()` returns instead of throwing |
| ChunkCache.New | entwine/builder/chunk-cache.hpp:27-29 | a new slot has a resident chunk built from the given key and hierarchy, and (by the default at line 57) a count of zero |
| ChunkCache.Add | entwine/builder/chunk-cache.hpp:33 | `add()` raises the count by exactly one below the top of the `uint64_t` range, wraps to zero at the top, and leaves the owned chunk unchanged |
| ChunkCache.Del | entwine/builder/chunk-cache.hpp:34-38 | `del()` throws "Negative" exactly when the count is zero, and then leaves the slot unchanged; otherwise it returns the count minus one, `count()` afterwards equals that value, and residency is unchanged |
| ChunkCache.GetChunk | entwine/builder/chunk-cache.hpp:41-45 | `chunk()` throws "Missing chunk" exactly when no chunk is resident; otherwise it returns the resident chunk; in both cases the slot is unchanged |
| ChunkCache.Reset | entwine/builder/chunk-cache.hpp:47 | after `reset()` no chunk is resident and the count is unchanged |
| ChunkCache.Assign | entwine/builder/chunk-cache.hpp:49-53 | on an empty slot, `assign()` makes a chunk resident, `chunk()` then returns the chunk built from the new key and hierarchy, and the count is unchanged |
| ChunkCache.ExistsIffChunkSucceeds | entwine/builder/chunk-cache.hpp:41-48 | `exists()` is true exactly when `chunk()` returns, and false exactly when it throws "Missing chunk" |
| ChunkCache.AddDelRoundTrip | entwine/builder/chunk-cache.hpp:33-38 | below the top of the range, `add()` then `del()` restores the slot and `del()` returns the original count |
| ChunkCache.DelAddRoundTrip | entwine/builder/chunk-cache.hpp:33-38 | on a held slot, `del()` succeeds and a following `add()` restores the slot |
| ChunkCache.AddAtMaxWraps | entwine/builder/chunk-cache.hpp:33-38 | at a count of 2^64 - 1, `add()` wraps to zero and the `del()` meant to undo it throws "Negative" |
| ChunkCache.ResetIdempotent | entwine/builder/chunk-cache.hpp:47 | `reset()` applied twice equals `reset()` applied once |
| ChunkCache.ResetAssignRevives | entwine/builder/chunk-cache.hpp:27-53 | `reset()` then `assign()` gives the slot the constructor would build from the new key, keeping the old count |
| ChunkCache.RefsAndResidencyIndependent | entwine/builder/chunk-cache.hpp:33-53 | `add()` / `del()` never change residency, `reset()` / `assign()` never change the count, and `reset()` commutes with `add()` and with `del()` |
| ChunkCache.DefaultInfo | entwine/builder/chunk-cache.hpp:78-83 | a default `Info` has zero chunks written, read and alive |
| Uint64s.Inc | entwine/builder/chunk-cache.hpp:33 | incrementing a `uint64_t` adds one below the maximum and wraps to zero at the maximum |
| RefHistory.RunCount | entwine/builder/chunk-cache.hpp:33-38 | for any sequence of `add()` / `del()` calls in which no prefix takes the count past 2^64 - 1: it completes exactly when no prefix releases more references than it holds; every failure is "Negative" with the count at zero; a completed sequence ends at the starting count plus adds minus dels; residency never changes |
| RefHistory.RunConcat | entwine/builder/chunk-cache.hpp:34-38 | running two call sequences back to back is running the first, then the second from where the first stopped, unless the first threw |
| RefHistory.RunAdds | entwine/builder/chunk-cache.hpp:33 | `k` calls to `add()` below the top of the range raise the count by exactly `k` and nothing else |
| RefHistory.RunDels | entwine/builder/chunk-cache.hpp:34-38 | `k` calls to `del()` on a slot holding at least `k` references never throw and lower the count by exactly `k` |
| RefHistory.HoldersReleaseRestores | entwine/builder/chunk-cache.hpp:33-38 | `k` holders each taking and then releasing a reference leave the slot exactly as it was |

## Left out

- `SpinLock`, `spin()`, the per-slot lock and the 64 slice locks. They provide mutual exclusion between threads. The model is sequential, and the lock primitive is not part of this model.
- `ChunkCache` construction, `insert`, `clip`, `maybeSerialize`, `maybeErase`, `maybePurge`, `latchInfo` and the destructor. Only their declarations appear in `chunk-cache.hpp`, so eviction policy, serialization routing and counter updates have no code to model. The depth-to-slice mapping and the owned set are left out for the same reason.
- `ChunkCache::clipped()`. It is defined inline (`chunk-cache.hpp:76`), but it only forwards to `maybePurge(m_cacheSize)`, whose body is not part of this model.
- `Registry`. `addPoint` only forwards to `ChunkCache::insert`. The constructor, `save` and `merge` are declarations only. The pool and metadata accessors are plain getters.
- Storage endpoint reads and writes, and the I/O pool. These are external I/O.
- `Chunk`, `ChunkKey`, `Hierarchy`, `Voxel`, `Key` and `Clipper` internals. These types are external. A chunk is modelled by the key and hierarchy it is built from; a hierarchy is modelled by an identity.
- ChunkCache.Assign: models `assert(!exists())` as a precondition. In a build with assertions disabled, `assign()` on a live slot would replace and free the resident chunk; the model does not describe that case.
- ChunkCache.GetChunk: returns the chunk by value. Entwine's `chunk()` returns a mutable reference, through which callers change the chunk's points; those changes are not modelled.
